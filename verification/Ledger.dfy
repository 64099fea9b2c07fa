/** Terminal outcomes (internal/deliverer/outcomes) and the deliverer's counters (internal/metrics). */
module Ledger {
  import opened Notifications

  datatype Status = Delivered | PermanentlyFailed | Expired

  const REASON_ENCRYPTION_POLICY_VIOLATION := "encryption-policy-violation"
  const REASON_REJECTED_PAYLOAD := "provider-rejected-payload"
  const REASON_REJECTED_RECIPIENT := "provider-rejected-recipient"
  const REASON_AUTH_FAILED := "provider-auth-failed"
  const REASON_BUDGET_EXHAUSTED := "retry-budget-exhausted"
  const REASON_EXPIRED := "expired"

  datatype Outcome = Outcome(
    notificationId: string,
    status: Status,
    reason: string,
    providerResponse: string,
    attempts: nat,
    firstAttempt: Time,
    lastAttempt: Time)

  datatype ResultClass = Success | Transient | Permanent

  /** Everything the deliverer's instruments have counted. */
  datatype Counters = Counters(
    consumed: nat,
    outcomes: nat,
    attemptsHistogram: seq<nat>,
    decryptFailures: nat,
    providerAttempts: map<ResultClass, nat>)

  const NO_COUNTS := Counters(0, 0, [], 0, map[Success := 0, Transient := 0, Permanent := 0])

  function CountOutcome(c: Counters, reason: string, attempts: nat): Counters {
    c.(outcomes := c.outcomes + 1,
       attemptsHistogram := if attempts > 0 then c.attemptsHistogram + [attempts] else c.attemptsHistogram,
       decryptFailures := c.decryptFailures + if reason == REASON_ENCRYPTION_POLICY_VIOLATION then 1 else 0)
  }

  function CountAttempt(c: Counters, cls: ResultClass): Counters {
    c.(providerAttempts := c.providerAttempts[cls := Attempts(c, cls) + 1])
  }

  function Attempts(c: Counters, cls: ResultClass): nat {
    if cls in c.providerAttempts then c.providerAttempts[cls] else 0
  }

  function TotalAttempts(c: Counters): nat {
    Attempts(c, Success) + Attempts(c, Transient) + Attempts(c, Permanent)
  }

  class Recorder {
    var records: seq<Outcome>

    constructor ()
      ensures records == []
    {
      records := [];
    }

    method Record(o: Outcome)
      modifies this
      ensures records == old(records) + [o]
    {
      records := records + [o];
    }
  }

  class Metrics {
    var counters: Counters

    constructor ()
      ensures counters == NO_COUNTS
    {
      counters := NO_COUNTS;
    }

    method RecordConsumed()
      modifies this
      ensures counters == old(counters).(consumed := old(counters).consumed + 1)
    {
      counters := counters.(consumed := counters.consumed + 1);
    }

    method RecordOutcome(reason: string, attempts: nat)
      modifies this
      ensures counters == CountOutcome(old(counters), reason, attempts)
    {
      var c := counters.(outcomes := counters.outcomes + 1);
      if attempts > 0 {
        c := c.(attemptsHistogram := c.attemptsHistogram + [attempts]);
      }
      if reason == "encryption-policy-violation" {
        c := c.(decryptFailures := c.decryptFailures + 1);
      }
      counters := c;
    }

    method RecordProviderAttempt(cls: ResultClass)
      modifies this
      ensures counters == CountAttempt(old(counters), cls)
      ensures TotalAttempts(counters) == TotalAttempts(old(counters)) + 1
      ensures Attempts(counters, cls) == Attempts(old(counters), cls) + 1
      ensures forall other | other != cls :: Attempts(counters, other) == Attempts(old(counters), other)
      ensures counters.(providerAttempts := old(counters).providerAttempts) == old(counters)
    {
      var seen := if cls in counters.providerAttempts then counters.providerAttempts[cls] else 0;
      counters := counters.(providerAttempts := counters.providerAttempts[cls := seen + 1]);
    }
  }

  // --- What the books must say ---------------------------------------------------------------

  function SumAttempts(records: seq<Outcome>): nat {
    if records == [] then 0
    else SumAttempts(records[..|records| - 1]) + records[|records| - 1].attempts
  }

  function CountReason(records: seq<Outcome>, reason: string): nat {
    if records == [] then 0
    else CountReason(records[..|records| - 1], reason) + if records[|records| - 1].reason == reason then 1 else 0
  }

  /** The ids of the notifications recorded as delivered, in order. */
  function DeliveredIds(records: seq<Outcome>): seq<string> {
    if records == [] then []
    else
      var ids := DeliveredIds(records[..|records| - 1]);
      var o := records[|records| - 1];
      if o.status == Delivered then ids + [o.notificationId] else ids
  }

  /** The positive attempt counts of the records, in order. */
  function PositiveAttempts(records: seq<Outcome>): seq<nat> {
    if records == [] then []
    else
      var counts := PositiveAttempts(records[..|records| - 1]);
      var n := records[|records| - 1].attempts;
      if n > 0 then counts + [n] else counts
  }

  /** The outcome counters agree with the log of outcomes, record by record. */
  predicate Reconciled(records: seq<Outcome>, c: Counters) {
    && c.outcomes == |records|
    && c.decryptFailures == CountReason(records, REASON_ENCRYPTION_POLICY_VIOLATION)
    && c.attemptsHistogram == PositiveAttempts(records)
  }

  lemma Appended(records: seq<Outcome>, o: Outcome)
    ensures (records + [o])[..|records|] == records
    ensures SumAttempts(records + [o]) == SumAttempts(records) + o.attempts
    ensures forall reason :: CountReason(records + [o], reason)
                          == CountReason(records, reason) + if o.reason == reason then 1 else 0
    ensures DeliveredIds(records + [o])
         == DeliveredIds(records) + if o.status == Delivered then [o.notificationId] else []
    ensures PositiveAttempts(records + [o]) == PositiveAttempts(records) + if o.attempts > 0 then [o.attempts] else []
  {
    assert (records + [o])[..|records|] == records;
  }

  lemma AppendedAttempts(records: seq<Outcome>, o: Outcome)
    ensures SumAttempts(records + [o]) == SumAttempts(records) + o.attempts
  {
    assert (records + [o])[..|records|] == records;
  }

  lemma AppendedDelivered(records: seq<Outcome>, o: Outcome)
    ensures DeliveredIds(records + [o])
         == DeliveredIds(records) + if o.status == Delivered then [o.notificationId] else []
  {
    assert (records + [o])[..|records|] == records;
  }

  /** Recording an outcome and counting it keeps the books reconciled. */
  lemma RecordingReconciles(records: seq<Outcome>, c: Counters, o: Outcome)
    requires Reconciled(records, c)
    ensures Reconciled(records + [o], CountOutcome(c, o.reason, o.attempts))
    ensures TotalAttempts(CountOutcome(c, o.reason, o.attempts)) == TotalAttempts(c)
  {
    Appended(records, o);
  }

  lemma CountingAttempt(c: Counters, cls: ResultClass)
    ensures TotalAttempts(CountAttempt(c, cls)) == TotalAttempts(c) + 1
    ensures forall other | other != cls :: Attempts(CountAttempt(c, cls), other) == Attempts(c, other)
  {
  }
}
