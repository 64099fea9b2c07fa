/**
 * Key rotation and the worker pool in one system: workers run on deliverers whose key directories change while
 * writers are restarted, messages are sent and handled, and operators follow the runbook.
 */
module Deployment {
  import opened Text
  import opened Notifications
  import opened Ledger
  import Rotation
  import Pool

  type MessageId = nat

  /** Which deliverer each worker runs on, what each message says once opened, and the pool's settings. */
  datatype Config = Config(
    hosts: seq<string>,
    body: MessageId -> Option<Notification>,
    property: MessageId -> string,
    max: int,
    registered: set<string>,
    reports: bool)

  datatype State = State(keys: Rotation.State, pool: Pool.State)

  datatype Step =
    | Operate(step: Rotation.Step)
    | Send(w: string, m: MessageId)
    | Cancel
    | Work(v: nat, action: Pool.Action)

  /** A deliverer opens a pending message if its directory holds a key of it now. */
  predicate CanOpen(s: State, d: string, m: MessageId) {
    d in s.keys.deliverers && m in s.keys.unacked && Rotation.Opens(s.keys.deliverers[d], s.keys.unacked[m])
  }

  /** The topic as a deliverer finds it. */
  function View(cfg: Config, s: State, d: string): Pool.Config {
    Pool.Config(
      cfg.max, cfg.registered,
      (m: MessageId) => Pool.Delivery(CanOpen(s, d, m), cfg.body(m), cfg.property(m)),
      cfg.reports)
  }

  /** What operators do, as against traffic. */
  predicate IsOperation(step: Rotation.Step) {
    !step.Publish? && !step.Consume? && !step.Acknowledge?
  }

  predicate Possible(cfg: Config, s: State, step: Step) {
    match step
    case Operate(step) => IsOperation(step) && Rotation.Possible(s.keys, step)
    case Send(w, m) => Rotation.Possible(s.keys, Rotation.Publish(w, m)) && m !in s.pool.published
    case Cancel => true
    case Work(v, a) =>
      && v < |s.pool.workers| && v < |cfg.hosts| && cfg.hosts[v] in s.keys.deliverers
      && Pool.CanAct(View(cfg, s, cfg.hosts[v]), s.pool, s.pool.workers[v], a)
  }

  /** Acknowledging a message ends its life on the topic; meeting one is a consume. */
  function Keyed(cfg: Config, s: State, v: nat, a: Pool.Action): Rotation.State
    requires Possible(cfg, s, Work(v, a))
  {
    match a
    case Ack => s.keys.(unacked := s.keys.unacked - {s.pool.workers[v].m})
    case ReceiveViolation(m) => s.keys.(violations := s.keys.violations + 1)
    case _ => s.keys
  }

  function Next(cfg: Config, s: State, step: Step): State
    requires Possible(cfg, s, step)
  {
    match step
    case Operate(step) => s.(keys := Rotation.Next(s.keys, step))
    case Send(w, m) =>
      var keys := Rotation.Next(s.keys, Rotation.Publish(w, m));
      if Rotation.CanPublish(s.keys.writers[w]) then
        State(keys, s.pool.(published := s.pool.published + {m}, backlog := s.pool.backlog + multiset{m}))
      else s.(keys := keys)
    case Cancel => s.(pool := s.pool.(cancelled := true))
    case Work(v, a) =>
      var view := View(cfg, s, cfg.hosts[v]);
      State(Keyed(cfg, s, v, a), Pool.Moved(s.pool, v, Pool.Acted(view, s.pool, s.pool.workers[v], a)))
  }

  predicate Follows(s: State, step: Step)
    requires step.Operate? ==> Rotation.Possible(s.keys, step.step)
  {
    step.Operate? ==> Rotation.FollowsRunbook(s.keys, step.step)
  }

  /** The state some steps lead to from a fresh pool, if each is possible and operators follow the runbook. */
  function After(cfg: Config, workers: nat, keys: Rotation.State, steps: seq<Step>): Option<State> {
    if steps == [] then Some(State(keys, Pool.Initial(workers)))
    else
      var before, step := After(cfg, workers, keys, steps[..|steps| - 1]), steps[|steps| - 1];
      if before.Some? && Possible(cfg, before.value, step) && Follows(before.value, step) then
        Some(Next(cfg, before.value, step))
      else None
  }

  /** Keys in order, and nothing on the topic yet. */
  predicate IsStart(keys: Rotation.State) {
    Rotation.Safe(keys) && keys.published == {} && keys.unacked == map[]
  }

  // --- The same run of the pool alone ---------------------------------------------------------------------------

  /** The pool as it would be if every message could be opened. */
  function Opened(cfg: Config): Pool.Config {
    Pool.Config(
      cfg.max, cfg.registered, (m: MessageId) => Pool.Delivery(true, cfg.body(m), cfg.property(m)), cfg.reports)
  }

  /** What the steps do to the pool: operators do nothing to it. */
  function OnPool(step: Step): seq<Pool.Step> {
    match step
    case Operate(_) => []
    case Send(_, m) => [Pool.Publish(m)]
    case Cancel => [Pool.Cancel]
    case Work(v, a) => [Pool.Act(v, a)]
  }

  function Schedule(steps: seq<Step>): seq<Pool.Step> {
    if steps == [] then [] else Schedule(steps[..|steps| - 1]) + OnPool(steps[|steps| - 1])
  }

  // --- What every run that follows the runbook keeps ---------------------------------------------------------

  /** Pending for the keys is published and not acknowledged for the pool. */
  ghost predicate SameBacklog(s: State) {
    && s.pool.published == s.keys.published
    && forall m: MessageId :: m in s.keys.unacked <==> m in s.pool.published && s.pool.acked[m] == 0
  }

  ghost predicate Sound(cfg: Config, s: State) {
    Rotation.Safe(s.keys) && Pool.Inv(Opened(cfg), s.pool) && SameBacklog(s)
  }

  lemma PendingOpens(s: State, d: string, m: MessageId)
    requires Rotation.Safe(s.keys) && SameBacklog(s)
    ensures d in s.keys.deliverers && m in s.pool.published && s.pool.acked[m] == 0 ==> CanOpen(s, d, m)
  {
    if m in s.keys.unacked {
      assert Rotation.MessageSafe(s.keys, m);
    }
  }

  /** In a sound state every deliverer opens whatever it can be handed. */
  lemma BacklogOpens(cfg: Config, s: State, d: string, m: MessageId)
    requires Sound(cfg, s) && d in s.keys.deliverers && m in s.pool.backlog
    ensures CanOpen(s, d, m)
  {
    assert Pool.Places(s.pool, m) == if m in s.pool.published then 1 else 0;
    PendingOpens(s, d, m);
  }

  /** And whatever a worker holds: its host could still open it if it were handed out again. */
  lemma HeldOpens(cfg: Config, s: State, v: nat, d: string, m: MessageId)
    requires Sound(cfg, s) && d in s.keys.deliverers && Pool.Holds(s.pool, v, m)
    ensures CanOpen(s, d, m)
  {
    assert Pool.Places(s.pool, m) == if m in s.pool.published then 1 else 0;
    Pool.SumAtLeastOne(s.pool.workers, Pool.HeldOf(m), v);
    PendingOpens(s, d, m);
  }

  /** So no receive fails: neither a violation nor the adapter's error over an unopened message can happen. */
  lemma ReceivesSucceed(cfg: Config, s: State, v: nat, a: Pool.Action)
    requires Sound(cfg, s) && Possible(cfg, s, Work(v, a))
    ensures !a.ReceiveViolation? && !a.ReceiveUnopened?
  {
    if a.ReceiveViolation? || a.ReceiveUnopened? {
      BacklogOpens(cfg, s, cfg.hosts[v], a.m);
    }
  }

  /** What a worker does on its host is what it would do if every message could be opened. */
  lemma SameMove(cfg: Config, s: State, d: string, pc: Pool.Pc, a: Pool.Action)
    requires Pool.CanAct(View(cfg, s, d), s.pool, pc, a) && !a.ReceiveViolation? && !a.ReceiveUnopened?
    ensures Pool.CanAct(Opened(cfg), s.pool, pc, a)
    ensures Pool.Acted(Opened(cfg), s.pool, pc, a) == Pool.Acted(View(cfg, s, d), s.pool, pc, a)
  {
  }

  lemma OperationKeeps(cfg: Config, s: State, step: Rotation.Step)
    requires Sound(cfg, s) && Possible(cfg, s, Operate(step)) && Rotation.FollowsRunbook(s.keys, step)
    ensures Sound(cfg, Next(cfg, s, Operate(step)))
  {
    Rotation.RunbookKeeps(s.keys, step);
    Rotation.StepKeepsIff(s.keys, step);
  }

  lemma SendIsPublish(cfg: Config, s: State, w: string, m: MessageId)
    requires Sound(cfg, s) && Possible(cfg, s, Send(w, m))
    ensures Rotation.CanPublish(s.keys.writers[w])
    ensures Pool.Enabled(Opened(cfg), s.pool, Pool.Publish(m))
    ensures Next(cfg, s, Send(w, m)).pool == Pool.Next(Opened(cfg), s.pool, Pool.Publish(m))
  {
    assert Rotation.WriterSafe(s.keys, w);
  }

  lemma SendKeeps(cfg: Config, s: State, w: string, m: MessageId)
    requires Sound(cfg, s) && Possible(cfg, s, Send(w, m))
    ensures Sound(cfg, Next(cfg, s, Send(w, m)))
  {
    SendIsPublish(cfg, s, w, m);
    Rotation.TrafficKeeps(s.keys, Rotation.Publish(w, m));
    Pool.StepKeepsInv(Opened(cfg), s.pool, Pool.Publish(m));
    assert Pool.Places(s.pool, m) == 0;
  }

  lemma AcknowledgeKeeps(keys: Rotation.State, m: MessageId)
    requires Rotation.Safe(keys)
    ensures Rotation.Safe(keys.(unacked := keys.unacked - {m}))
  {
    if m in keys.unacked {
      Rotation.TrafficKeeps(keys, Rotation.Acknowledge(m));
    } else {
      assert keys.unacked - {m} == keys.unacked;
    }
  }

  /** An acknowledgement takes the message a worker holds off both sides; no other action changes either. */
  lemma AckedTogether(acked: Option<MessageId>, s: State, after: State)
    requires SameBacklog(s) && after.pool.published == s.pool.published && after.keys.published == s.keys.published
    requires after.pool.acked == s.pool.acked + Pool.Bag(acked)
    requires acked.None? ==> after.keys.unacked == s.keys.unacked
    requires acked.Some? ==> after.keys.unacked == s.keys.unacked - {acked.value}
    ensures SameBacklog(after)
  {
    forall m: MessageId
      ensures after.pool.acked[m] == s.pool.acked[m] + Pool.One(acked, m)
      ensures m in after.keys.unacked <==> m in s.keys.unacked && acked != Some(m)
    {
      Pool.BagCounts(s.pool.acked, acked, m);
    }
  }

  lemma WorkKeepsBacklog(cfg: Config, s: State, v: nat, a: Pool.Action, mv: Pool.Move)
    requires Sound(cfg, s) && Possible(cfg, s, Work(v, a)) && !a.ReceiveViolation?
    requires mv == Pool.Acted(View(cfg, s, cfg.hosts[v]), s.pool, s.pool.workers[v], a)
    ensures SameBacklog(Next(cfg, s, Work(v, a)))
  {
    Pool.ActionAcks(View(cfg, s, cfg.hosts[v]), s.pool, s.pool.workers[v], a);
    AckedTogether(mv.acked, s, Next(cfg, s, Work(v, a)));
  }

  lemma WorkIsAct(cfg: Config, s: State, v: nat, a: Pool.Action)
    requires Sound(cfg, s) && Possible(cfg, s, Work(v, a))
    ensures Pool.Enabled(Opened(cfg), s.pool, Pool.Act(v, a))
    ensures Next(cfg, s, Work(v, a)).pool == Pool.Next(Opened(cfg), s.pool, Pool.Act(v, a))
  {
    ReceivesSucceed(cfg, s, v, a);
    SameMove(cfg, s, cfg.hosts[v], s.pool.workers[v], a);
  }

  lemma WorkKeeps(cfg: Config, s: State, v: nat, a: Pool.Action)
    requires Sound(cfg, s) && Possible(cfg, s, Work(v, a))
    ensures Sound(cfg, Next(cfg, s, Work(v, a)))
  {
    ReceivesSucceed(cfg, s, v, a);
    WorkIsAct(cfg, s, v, a);
    Pool.StepKeepsInv(Opened(cfg), s.pool, Pool.Act(v, a));
    WorkKeepsBacklog(cfg, s, v, a, Pool.Acted(View(cfg, s, cfg.hosts[v]), s.pool, s.pool.workers[v], a));
    if a.Ack? {
      AcknowledgeKeeps(s.keys, s.pool.workers[v].m);
    }
  }

  /** Operators who follow the runbook, writers, workers, crashes and cancellation keep the system sound. */
  lemma StepKeepsSound(cfg: Config, s: State, step: Step)
    requires Sound(cfg, s) && Possible(cfg, s, step) && Follows(s, step)
    ensures Sound(cfg, Next(cfg, s, step))
  {
    match step
    case Operate(op) => OperationKeeps(cfg, s, op);
    case Send(w, m) => SendKeeps(cfg, s, w, m);
    case Cancel => Pool.StepKeepsInv(Opened(cfg), s.pool, Pool.Cancel);
    case Work(v, a) => WorkKeeps(cfg, s, v, a);
  }

  predicate RunFollows(cfg: Config, s: State, steps: seq<Step>, end: State)
    decreases |steps|
  {
    if steps == [] then end == s
    else
      && Possible(cfg, s, steps[0]) && Follows(s, steps[0])
      && RunFollows(cfg, Next(cfg, s, steps[0]), steps[1..], end)
  }

  /** From any sound state, every run in which operators follow the runbook leads to a sound one. */
  lemma {:induction false} RunKeepsSound(cfg: Config, s: State, steps: seq<Step>, end: State)
    requires Sound(cfg, s) && RunFollows(cfg, s, steps, end)
    ensures Sound(cfg, end)
    decreases |steps|
  {
    if steps != [] {
      StepKeepsSound(cfg, s, steps[0]);
      RunKeepsSound(cfg, Next(cfg, s, steps[0]), steps[1..], end);
    }
  }

  /** One step of the deployment is at most one step of the pool. */
  lemma StepProjects(cfg: Config, s: State, step: Step)
    requires Sound(cfg, s) && Possible(cfg, s, step)
    ensures OnPool(step) == [] ==> Next(cfg, s, step).pool == s.pool
    ensures OnPool(step) != [] ==>
      && |OnPool(step)| == 1 && Pool.Enabled(Opened(cfg), s.pool, OnPool(step)[0])
      && Next(cfg, s, step).pool == Pool.Next(Opened(cfg), s.pool, OnPool(step)[0])
  {
    match step
    case Operate(_) =>
    case Send(w, m) => SendIsPublish(cfg, s, w, m);
    case Cancel =>
    case Work(v, a) => WorkIsAct(cfg, s, v, a);
  }

  lemma {:induction false} RunIsSound(cfg: Config, workers: nat, keys: Rotation.State, steps: seq<Step>)
    requires IsStart(keys) && After(cfg, workers, keys, steps).Some?
    ensures Sound(cfg, After(cfg, workers, keys, steps).value)
    decreases |steps|
  {
    if steps == [] {
      Pool.InitialInv(Opened(cfg), workers);
    } else {
      var before, step := steps[..|steps| - 1], steps[|steps| - 1];
      RunIsSound(cfg, workers, keys, before);
      StepKeepsSound(cfg, After(cfg, workers, keys, before).value, step);
    }
  }

  /**
   * As long as operators follow the runbook, the pool cannot tell that keys change: it goes through a run it could make
   * if every message could be opened. Whatever holds of the pool's runs holds of the deployment's.
   */
  lemma {:induction false} RunProjects(cfg: Config, workers: nat, keys: Rotation.State, steps: seq<Step>)
    requires IsStart(keys) && After(cfg, workers, keys, steps).Some?
    ensures Pool.After(Opened(cfg), workers, Schedule(steps)).Some?
    ensures Pool.After(Opened(cfg), workers, Schedule(steps)).value == After(cfg, workers, keys, steps).value.pool
    decreases |steps|
  {
    if steps != [] {
      var before, step := steps[..|steps| - 1], steps[|steps| - 1];
      RunProjects(cfg, workers, keys, before);
      RunIsSound(cfg, workers, keys, before);
      StepProjects(cfg, After(cfg, workers, keys, before).value, step);
      ScheduleGrows(cfg, workers, Schedule(before), OnPool(step));
    }
  }

  lemma ScheduleGrows(cfg: Config, workers: nat, schedule: seq<Pool.Step>, more: seq<Pool.Step>)
    requires Pool.After(Opened(cfg), workers, schedule).Some? && |more| <= 1
    requires var s := Pool.After(Opened(cfg), workers, schedule).value;
      more != [] ==> Pool.Enabled(Opened(cfg), s, more[0])
    ensures var s := Pool.After(Opened(cfg), workers, schedule).value;
      && Pool.After(Opened(cfg), workers, schedule + more).Some?
      && Pool.After(Opened(cfg), workers, schedule + more).value
         == if more == [] then s else Pool.Next(Opened(cfg), s, more[0])
  {
    if more == [] {
      assert schedule + more == schedule;
    } else {
      assert (schedule + more)[..|schedule|] == schedule;
    }
  }

  // --- What that means -----------------------------------------------------------------------------------------

  /**
   * Whatever the deployment does, as long as its operators follow the runbook no violation is recorded, no publish
   * fails, and every message still pending can be opened on every deliverer.
   */
  lemma RunbookRecordsNoViolation(cfg: Config, workers: nat, keys: Rotation.State, steps: seq<Step>)
    requires IsStart(keys) && After(cfg, workers, keys, steps).Some?
    ensures var s := After(cfg, workers, keys, steps).value;
      && s.pool.violations == 0 && s.keys.failedPublishes == 0
      && (forall i | 0 <= i < |s.pool.sources| :: !s.pool.sources[i].Violation?)
      && forall d, m | d in s.keys.deliverers && m in s.pool.published && s.pool.acked[m] == 0 :: CanOpen(s, d, m)
  {
    RunIsSound(cfg, workers, keys, steps);
    var s := After(cfg, workers, keys, steps).value;
    forall i | 0 <= i < |s.pool.sources| ensures !s.pool.sources[i].Violation? {
      assert Pool.Justified(Opened(cfg), s.pool.sources[i], s.pool.records[i]);
    }
    if s.pool.violations > 0 {
      var i := Pool.ViolationHasSource(s.pool.sources);
    }
    forall d, m | d in s.keys.deliverers && m in s.pool.published && s.pool.acked[m] == 0 ensures CanOpen(s, d, m) {
      PendingOpens(s, d, m);
    }
  }

  /**
   * Without crashes, at quiescence: every outcome is a consumed message's, every attempt a push and a count, and what
   * the provider accepted is what is recorded as delivered, while keys were rotated any number of times.
   */
  lemma DeploymentBalances(cfg: Config, workers: nat, keys: Rotation.State, steps: seq<Step>)
    requires IsStart(keys) && After(cfg, workers, keys, steps).Some?
    requires Pool.CrashFree(Schedule(steps)) && Pool.Quiescent(After(cfg, workers, keys, steps).value.pool)
    ensures var pool := After(cfg, workers, keys, steps).value.pool; var c := pool.counters;
      && |pool.records| == c.consumed == c.outcomes
      && SumAttempts(pool.records) == |pool.pushes| == TotalAttempts(c)
      && multiset(Pool.AcceptedIds(pool.pushes)) == multiset(DeliveredIds(pool.records))
  {
    RunProjects(cfg, workers, keys, steps);
    RunbookRecordsNoViolation(cfg, workers, keys, steps);
    Pool.QuiescentBooksBalance(Opened(cfg), workers, Schedule(steps));
    Pool.QuiescentDeliveriesMatch(Opened(cfg), workers, Schedule(steps));
  }

  /** And in every state, crashes or not, each message is in one place and its outcomes carry its id. */
  lemma DeploymentAccounts(cfg: Config, workers: nat, keys: Rotation.State, steps: seq<Step>, m: MessageId)
    requires IsStart(keys) && After(cfg, workers, keys, steps).Some?
    ensures var pool := After(cfg, workers, keys, steps).value.pool;
      && (m in pool.published ==>
            && pool.backlog[m] + pool.acked[m] <= 1
            && (forall v, w | Pool.Holds(pool, v, m) && Pool.Holds(pool, w, m) :: v == w)
            && ((exists w :: Pool.Holds(pool, w, m)) <==> pool.backlog[m] + pool.acked[m] == 0))
      && Pool.OutcomesOf(pool.sources, m) >= pool.acked[m]
      && |pool.records| == |pool.sources|
      && forall i | 0 <= i < |pool.sources| && pool.sources[i].OfMessage? && pool.sources[i].m == m ::
           pool.records[i].notificationId == Pool.MessageIdOf(Opened(cfg).message(m))
  {
    RunProjects(cfg, workers, keys, steps);
    Pool.ExactlyOnePlace(Opened(cfg), workers, Schedule(steps), m);
    Pool.AckedHasOutcome(Opened(cfg), workers, Schedule(steps), m);
    Pool.OutcomesCarryId(Opened(cfg), workers, Schedule(steps), m);
  }
}
