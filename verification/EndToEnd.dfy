/** From the caller's request to the recorded outcome: what the writer accepts, the deliverer can account for. */
module EndToEnd {
  import opened Text
  import opened Notifications
  import opened ErrorTrees
  import opened Ledger
  import Ingest
  import HttpServer
  import Dispatching
  import Dispatcher
  import Consumer
  import Pool
  import Pushover

  /** The message a publish puts on the topic: its body and the plaintext id property. */
  function OnTopic(input: Ingest.PublishInput): Consumer.Received {
    Consumer.Message(input.body, input.id)
  }

  /** The deliverer decodes this body to what the writer encoded, or not at all. */
  predicate ReadsAs(codec: Codec, body: Bytes, n: Notification) {
    codec.unmarshal(body) == None || codec.unmarshal(body) == Some(n)
  }

  /** Reading with the writer's own lossless codec is the first of the two cases. */
  lemma OwnCodecReads(codec: Codec, n: Notification)
    requires codec.Lossless() && codec.marshal(n).Some?
    ensures codec.unmarshal(codec.marshal(n).value) == Some(n)
  {
  }

  /** One Accept that succeeded, and what it read. */
  ghost predicate Succeeded(
    e: Ingest.Effect, n: Notification, service: string, reading: Ingest.Reading, codec: Codec,
    absolute: Ingest.UrlCheck, calls: seq<Ingest.PublishInput>)
  {
    Ingest.IsEffect(e, n, service, reading, codec, absolute, calls, None) && e.result.Accepted?
  }

  /** What was accepted resolves to the Pushover provider and gets past both of its guards. */
  lemma AcceptedIsSendable(
    e: Ingest.Effect, n: Notification, service: string, reading: Ingest.Reading, codec: Codec,
    absolute: Ingest.UrlCheck, calls: seq<Ingest.PublishInput>, registered: set<string>)
    requires Succeeded(e, n, service, reading, codec, absolute, calls) && "pushover" in registered
    ensures Dispatching.Resolves(e.value, registered) && Pushover.Sendable(e.value)
    ensures e.calls == calls + [e.calls[|calls|]] && e.calls[|calls|].id == e.value.id == e.result.id
    ensures codec.marshal(e.value) == Some(e.calls[|calls|].body)
  {
    Ingest.AtMostOnePublish(e, n, service, reading, codec, absolute, calls, None);
  }

  /** No response to a sendable notification is one of the two complaints about a missing part. */
  lemma NeverMissing(n: Notification, x: Pushover.Exchange)
    requires Pushover.Sendable(n)
    ensures Pushover.Pushed(n, x) != Pushover.MissingField("pushover: missing PushoverTarget")
    ensures Pushover.Pushed(n, x) != Pushover.MissingField("pushover: missing Content")
  {
  }

  /** How a message that is read as n, under n's own id, ends when n resolves. */
  lemma AccountedOutcome(cfg: Consumer.Setup, b: Consumer.Books, n: Notification, body: Bytes, id: string)
    returns (o: Outcome)
    requires n.id == id && Dispatching.Resolves(n, cfg.registered) && ReadsAs(cfg.codec, body, n)
    ensures Consumer.Taken(cfg, b, Consumer.Message(body, id)).records == b.records + [o] && o.notificationId == id
    ensures var now := cfg.streams.clock(b.used.ticks);
            var future := Dispatcher.FutureAt(cfg.streams, b.used.(ticks := b.used.ticks + 1), cfg.policy, n);
      o == if cfg.codec.unmarshal(body).None? then Consumer.MalformedOutcome(id)
           else if Dispatching.IsExpired(n, now) then Dispatching.ExpiredOutcome(id, now)
           else Dispatching.OutcomeOf(id, Dispatching.RunOf(cfg.policy.maxAttempts, future))
  {
    var records := Consumer.Taken(cfg, b, Consumer.Message(body, id)).records;
    o := records[|records| - 1];
    assert Consumer.Identified(n, id) == n;
  }

  /** The three ways an accepted notification can end: body unreadable, expired, or the retry loop's own outcome. */
  lemma AcceptedOutcome(
    e: Ingest.Effect, n: Notification, service: string, reading: Ingest.Reading, codec: Codec,
    absolute: Ingest.UrlCheck, calls: seq<Ingest.PublishInput>, cfg: Consumer.Setup, b: Consumer.Books)
    returns (o: Outcome)
    requires Succeeded(e, n, service, reading, codec, absolute, calls) && "pushover" in cfg.registered
    requires ReadsAs(cfg.codec, e.calls[|calls|].body, e.value)
    ensures Consumer.Taken(cfg, b, OnTopic(e.calls[|calls|])).records == b.records + [o]
    ensures o.notificationId == e.result.id
    ensures var now := cfg.streams.clock(b.used.ticks);
            var future := Dispatcher.FutureAt(cfg.streams, b.used.(ticks := b.used.ticks + 1), cfg.policy, e.value);
      o == if cfg.codec.unmarshal(e.calls[|calls|].body).None? then Consumer.MalformedOutcome(e.result.id)
           else if Dispatching.IsExpired(e.value, now) then Dispatching.ExpiredOutcome(e.result.id, now)
           else Dispatching.OutcomeOf(e.result.id, Dispatching.RunOf(cfg.policy.maxAttempts, future))
  {
    AcceptedIsSendable(e, n, service, reading, codec, absolute, calls, cfg.registered);
    o := AccountedOutcome(cfg, b, e.value, e.calls[|calls|].body, e.result.id);
  }

  /** Every push made for an accepted notification over Pushover is answered by the exchange, never by a guard. */
  lemma AcceptedNeverMissing(
    e: Ingest.Effect, n: Notification, service: string, reading: Ingest.Reading, codec: Codec,
    absolute: Ingest.UrlCheck, calls: seq<Ingest.PublishInput>, exchanges: nat -> Pushover.Exchange, i: nat)
    requires Succeeded(e, n, service, reading, codec, absolute, calls)
    ensures var r := Pushover.AsStream(exchanges)(i, e.value);
      && r != Pushover.MissingField("pushover: missing PushoverTarget")
      && r != Pushover.MissingField("pushover: missing Content")
      && (Dispatching.ClassOf(r) == Permanent <==> Pushover.IsRefusal(exchanges(i)))
  {
    AcceptedIsSendable(e, n, service, reading, codec, absolute, calls, {"pushover"});
    NeverMissing(e.value, exchanges(i));
    Pushover.ExchangeClasses(e.value, exchanges(i));
  }

  /**
   * The id a caller reads in a 202 is the id of the outcome recorded for its message: whenever a worker takes
   * that message, whatever else is in its inbox and whatever becomes of the delivery.
   */
  lemma AcceptedIsAccountedFor(
    x: HttpServer.Exchange, writer: HttpServer.Setup, req: HttpServer.Request, reading: Ingest.Reading,
    calls: seq<Ingest.PublishInput>, answer: Option<Err>,
    cfg: Consumer.Setup, inbox: seq<Consumer.Received>, i: nat, b: Consumer.Books)
    requires HttpServer.IsServed(x, writer, req, reading, calls, answer) && HttpServer.RouterAnswers(writer.library)
    ensures x.response.status == 202 ==>
      && |x.calls| == |calls| + 1 && x.response.data.Some?
      && (SameCodec(writer.codec, cfg.codec) && Takes(cfg, b, inbox, i, x.calls[|calls|]) ==>
            var records := Consumer.Ran(cfg, inbox, b, []).books.records;
            |b.records| + i < |records| && records[|b.records| + i].notificationId == x.response.data.value.0)
  {
    HttpServer.StatusTellsHistory(x, writer, req, reading, calls, answer);
    if x.response.status == 202 {
      var e := HttpServer.ServedParts(x, writer, req, reading, calls, answer);
      var service, n := HttpServer.ServiceFor(writer, req), HttpServer.Submitted(writer, req).value;
      Ingest.AtMostOnePublish(e.value, n, service, reading, writer.codec, writer.absolute, calls, answer);
      if SameCodec(writer.codec, cfg.codec) && Takes(cfg, b, inbox, i, x.calls[|calls|]) {
        OwnCodecReads(writer.codec, e.value.value);
        Consumer.OneOutcomePerItem(cfg, inbox, b);
        var end := Consumer.Ran(cfg, inbox, b, []);
        assert inbox[..end.taken][i] == inbox[i];
        assert Consumer.IdOf(cfg.codec, inbox[i]) == e.value.result.id;
      }
    }
  }

  /** The writer's codec loses nothing, and the deliverer reads every body the same way or not at all. */
  ghost predicate SameCodec(writer: Codec, deliverer: Codec) {
    writer.Lossless() && forall body :: deliverer.unmarshal(body) in {None, writer.unmarshal(body)}
  }

  /** A worker's run takes the published message as item i of its inbox. */
  predicate Takes(
    cfg: Consumer.Setup, b: Consumer.Books, inbox: seq<Consumer.Received>, i: nat, input: Ingest.PublishInput) {
    i < |inbox| && i < Consumer.Ran(cfg, inbox, b, []).taken && inbox[i] == OnTopic(input)
  }

  /** The message of the pool is this publish, as a deliverer with that codec reads it. */
  predicate IsPublished(d: Pool.Delivery, codec: Codec, input: Ingest.PublishInput) {
    d.decoded == codec.unmarshal(input.body) && d.property == input.id
  }

  /**
   * So it is with any number of workers: in every reachable state of the pool, whatever interleaved or crashed, each
   * outcome recorded for the message of a 202 carries the id the caller read.
   */
  lemma AcceptedIsAccountedForInPool(
    x: HttpServer.Exchange, writer: HttpServer.Setup, req: HttpServer.Request, reading: Ingest.Reading,
    calls: seq<Ingest.PublishInput>, answer: Option<Err>,
    cfg: Pool.Config, workers: nat, schedule: seq<Pool.Step>, m: nat, deliverer: Codec)
    requires HttpServer.IsServed(x, writer, req, reading, calls, answer) && HttpServer.RouterAnswers(writer.library)
    requires Pool.After(cfg, workers, schedule).Some?
    ensures x.response.status == 202 ==>
      && |x.calls| == |calls| + 1 && x.response.data.Some?
      && (SameCodec(writer.codec, deliverer) && IsPublished(cfg.message(m), deliverer, x.calls[|calls|]) ==>
            var s := Pool.After(cfg, workers, schedule).value;
            |s.records| == |s.sources| &&
            forall i | 0 <= i < |s.sources| && s.sources[i].OfMessage? && s.sources[i].m == m ::
              s.records[i].notificationId == x.response.data.value.0)
  {
    HttpServer.StatusTellsHistory(x, writer, req, reading, calls, answer);
    if x.response.status == 202 {
      var e := HttpServer.ServedParts(x, writer, req, reading, calls, answer);
      var service, n := HttpServer.ServiceFor(writer, req), HttpServer.Submitted(writer, req).value;
      Ingest.AtMostOnePublish(e.value, n, service, reading, writer.codec, writer.absolute, calls, answer);
      if SameCodec(writer.codec, deliverer) && IsPublished(cfg.message(m), deliverer, x.calls[|calls|]) {
        OwnCodecReads(writer.codec, e.value.value);
        assert Pool.MessageIdOf(cfg.message(m)) == e.value.result.id;
        Pool.OutcomesCarryId(cfg, workers, schedule, m);
      }
    }
  }

  /**
   * The published notification meets the schema if and only if it does not expire before its created_at; if it does
   * not, and only then, every delivery from that instant on finds it expired (the zero expiry, never tested, apart).
   */
  lemma AcceptedMeetsSchemaIff(
    e: Ingest.Effect, n: Notification, service: string, reading: Ingest.Reading, codec: Codec,
    absolute: Ingest.UrlCheck, calls: seq<Ingest.PublishInput>)
    requires Succeeded(e, n, service, reading, codec, absolute, calls)
    ensures Ingest.WellFormed(e.value, absolute) <==> n.expiresAt.None? || e.result.at <= n.expiresAt.value
    ensures (forall now | now >= e.result.at :: Dispatching.IsExpired(e.value, now)) <==>
            !Ingest.WellFormed(e.value, absolute) && n.expiresAt != Some(ZERO_TIME)
  {
    Ingest.StampedWellFormedIff(n, e.result.id, e.result.at, service, absolute);
    if forall now | now >= e.result.at :: Dispatching.IsExpired(e.value, now) {
      assert Dispatching.IsExpired(e.value, e.result.at);
    }
  }

  /** Both ways past the expiry test lead to an accepted notification that every later delivery finds expired. */
  lemma AcceptedMayBeExpired(
    n: Notification, service: string, id: string, instant: Time, codec: Codec, absolute: Ingest.UrlCheck,
    calls: seq<Ingest.PublishInput>, created: Option<Time>, expiry: Time, now: Time)
    requires Ingest.WellFormed(n, absolute) && ZERO_TIME < expiry < Ingest.TruncateToMillis(instant) <= now
    requires created.None? || created.value == expiry
    requires forall m :: codec.marshal(m).Some?
    ensures var sent := n.(createdAt := created, expiresAt := Some(expiry));
            var e := Ingest.PublishEffect(sent, service, Ingest.Reading(instant, Ingest.Id(id)), codec, calls, None);
      && Succeeded(e, sent, service, Ingest.Reading(instant, Ingest.Id(id)), codec, absolute, calls)
      && Dispatching.IsExpired(e.value, now)
  {
    Ingest.AnyExpiryPasses(n, expiry, absolute);
  }
}
