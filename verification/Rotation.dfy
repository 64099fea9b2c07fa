/**
 * Rotation of the topic's encryption keys (docs/key-rotation.md) as a protocol: any number of writer
 * and deliverer replicas, each with its own key directory, and a live backlog.
 */
module Rotation {
  import opened Text
  import opened Keys
  import KeyNames

  type Name = string
  type MessageId = nat

  /** What a key file holds: the two files of one pair stand for the same key. */
  type Key = string

  /** The names a message is encrypted to, each with the key it stood for when the message was sent. */
  type Sealed = map<Name, Key>

  /** A writer replica: its directory, and the active names fixed when it started. */
  datatype Writer = Writer(dir: Directory, running: bool, active: seq<Name>)

  datatype State = State(
    writers: map<string, Writer>,
    deliverers: map<string, Directory>,
    published: set<MessageId>,
    unacked: map<MessageId, Sealed>,
    violations: nat,
    failedPublishes: nat)

  datatype Step =
    | PlacePublic(w: string, k: Name, key: Key)
    | RemovePublic(w: string, k: Name)
    | PlacePrivate(d: string, k: Name, key: Key)
    | RemovePrivate(d: string, k: Name)
    | AddDeliverer(d: string, dir: Directory)
    | StopWriter(w: string)
    | StartWriter(w: string, csv: string)
    | Publish(w: string, m: MessageId)
    | Consume(d: string, m: MessageId)
    | Acknowledge(m: MessageId)

  function WithFile(dir: Directory, file: Path, key: Key): Directory {
    dir.(files := dir.files[file := key])
  }

  function WithoutFile(dir: Directory, file: Path): Directory {
    dir.(files := dir.files - {file})
  }

  /** A writer's directory with that public key file, new or overwritten. */
  function WithPublic(dir: Directory, k: Name, key: Key): Directory {
    WithFile(dir, PublicFile(dir.root, k), key)
  }

  /** A deliverer's directory with that private key file, new or overwritten. */
  function WithPrivate(dir: Directory, k: Name, key: Key): Directory {
    WithFile(dir, PrivateFile(dir.root, k), key)
  }

  /** A deliverer's directory after rm of that key's private file. */
  function WithoutKey(dir: Directory, k: Name): Directory {
    WithoutFile(dir, PrivateFile(dir.root, k))
  }

  function NamesIn(names: seq<Name>): set<Name> {
    set name | name in names
  }

  /** What encrypting to these names comes to: the public files are read by name at each use. */
  function Seal(dir: Directory, names: seq<Name>): Sealed {
    map name | name in NamesIn(names) && PublicKey(dir, name).Ok? :: PublicKey(dir, name).value.key
  }

  /** The directory's private key of that name is that key. */
  predicate Has(dir: Directory, name: Name, key: Key) {
    PrivateKey(dir, name).Ok? && PrivateKey(dir, name).value.key == key
  }

  /** Some private key in the directory opens the message. */
  predicate Opens(dir: Directory, sealed: Sealed) {
    exists name | name in sealed :: Has(dir, name, sealed[name])
  }

  function Sends(writer: Writer): Sealed {
    Seal(writer.dir, writer.active)
  }

  predicate CanPublish(writer: Writer) {
    forall i | 0 <= i < |writer.active| :: PublicKey(writer.dir, writer.active[i]).Ok?
  }

  predicate Possible(s: State, step: Step) {
    match step
    case PlacePublic(w, _, _) => w in s.writers
    case RemovePublic(w, _) => w in s.writers
    case PlacePrivate(d, _, _) => d in s.deliverers
    case RemovePrivate(d, _) => d in s.deliverers
    case AddDeliverer(d, _) => d !in s.deliverers
    case StopWriter(w) => w in s.writers
    case StartWriter(w, _) => w in s.writers
    case Publish(w, m) => w in s.writers && s.writers[w].running && m !in s.published
    case Consume(d, m) => d in s.deliverers && m in s.unacked
    case Acknowledge(m) => m in s.unacked
  }

  /** A (re)start reads the configured names and runs the gate; when it fails the replica stays down. */
  function Started(writer: Writer, csv: string): Writer {
    var names := KeyNames.Parse(csv);
    if Loads(writer.dir, names) then writer.(running := true, active := names) else writer.(running := false)
  }

  function Next(s: State, step: Step): State
    requires Possible(s, step)
  {
    match step
    case PlacePublic(w, k, key) =>
      s.(writers := s.writers[w := s.writers[w].(dir := WithPublic(s.writers[w].dir, k, key))])
    case RemovePublic(w, k) =>
      var dir := s.writers[w].dir;
      s.(writers := s.writers[w := s.writers[w].(dir := WithoutFile(dir, PublicFile(dir.root, k)))])
    case PlacePrivate(d, k, key) => s.(deliverers := s.deliverers[d := WithPrivate(s.deliverers[d], k, key)])
    case RemovePrivate(d, k) => s.(deliverers := s.deliverers[d := WithoutKey(s.deliverers[d], k)])
    case AddDeliverer(d, dir) => s.(deliverers := s.deliverers[d := dir])
    case StopWriter(w) => s.(writers := s.writers[w := s.writers[w].(running := false)])
    case StartWriter(w, csv) => s.(writers := s.writers[w := Started(s.writers[w], csv)])
    case Publish(w, m) =>
      if CanPublish(s.writers[w]) then
        s.(published := s.published + {m}, unacked := s.unacked[m := Sends(s.writers[w])])
      else s.(failedPublishes := s.failedPublishes + 1)
    case Consume(d, m) =>
      if Opens(s.deliverers[d], s.unacked[m]) then s else s.(violations := s.violations + 1)
    case Acknowledge(m) => s.(unacked := s.unacked - {m})
  }

  // --- Safety -------------------------------------------------------------------------------------

  /** What every run keeps whatever operators do: names are never missing, and what is pending was published. */
  predicate Shaped(s: State) {
    && (forall w | w in s.writers && s.writers[w].running :: s.writers[w].active != [])
    && (forall m | m in s.unacked :: s.unacked[m] != map[] && m in s.published)
  }

  /** A running writer can encrypt to all its names, and every deliverer can open what it sends. */
  predicate WriterSafe(s: State, w: string)
    requires w in s.writers
  {
    s.writers[w].running ==>
      && CanPublish(s.writers[w])
      && forall d | d in s.deliverers :: Opens(s.deliverers[d], Sends(s.writers[w]))
  }

  predicate MessageSafe(s: State, m: MessageId)
    requires m in s.unacked
  {
    forall d | d in s.deliverers :: Opens(s.deliverers[d], s.unacked[m])
  }

  predicate Broken(s: State) {
    s.violations > 0 || s.failedPublishes > 0
  }

  predicate Safe(s: State) {
    && Shaped(s) && !Broken(s)
    && (forall w | w in s.writers :: WriterSafe(s, w))
    && (forall m | m in s.unacked :: MessageSafe(s, m))
  }

  lemma ShapeKept(s: State, step: Step)
    requires Shaped(s) && Possible(s, step)
    ensures Shaped(Next(s, step))
  {
    var s' := Next(s, step);
    forall w | w in s'.writers && s'.writers[w].running ensures s'.writers[w].active != [] {
      assert w in s.writers;
    }
    if step.Publish? && CanPublish(s.writers[step.w]) {
      SentUnderAName(s.writers[step.w]);
    }
  }

  lemma SentUnderAName(writer: Writer)
    requires writer.active != [] && CanPublish(writer)
    ensures Sends(writer) != map[] && Sends(writer).Keys == NamesIn(writer.active)
  {
    forall name | name in NamesIn(writer.active) ensures name in Sends(writer) {
      var i :| 0 <= i < |writer.active| && writer.active[i] == name;
    }
    assert writer.active[0] in NamesIn(writer.active);
  }

  /** The directory opens whatever running writers send and whatever is pending. */
  predicate Serves(s: State, dir: Directory) {
    && (forall w | w in s.writers && s.writers[w].running :: Opens(dir, Sends(s.writers[w])))
    && (forall m | m in s.unacked :: Opens(dir, s.unacked[m]))
  }

  /** Every deliverer opens what a writer with this directory would send to these names. */
  predicate AllOpen(s: State, dir: Directory, names: seq<Name>) {
    forall d | d in s.deliverers :: Opens(s.deliverers[d], Seal(dir, names))
  }

  /** Some of the names leads to k's key file. */
  predicate Reaches(root: Path, names: set<Name>, k: Name) {
    exists name | name in names :: SameFile(root, name, k)
  }

  /** The exact condition under which a step keeps a safe system safe. */
  predicate Keeps(s: State, step: Step)
    requires Possible(s, step)
  {
    match step
    case PlacePublic(w, k, key) =>
      s.writers[w].running ==> AllOpen(s, WithPublic(s.writers[w].dir, k, key), s.writers[w].active)
    case RemovePublic(w, k) => s.writers[w].running ==> !Reaches(s.writers[w].dir.root, NamesIn(s.writers[w].active), k)
    case PlacePrivate(d, k, key) => Serves(s, WithPrivate(s.deliverers[d], k, key))
    case RemovePrivate(d, k) => Serves(s, WithoutKey(s.deliverers[d], k))
    case AddDeliverer(d, dir) => Serves(s, dir)
    case StartWriter(w, csv) =>
      Loads(s.writers[w].dir, KeyNames.Parse(csv)) ==> AllOpen(s, s.writers[w].dir, KeyNames.Parse(csv))
    case _ => true
  }

  lemma RemovedPublicKey(dir: Directory, k: Name, name: Name)
    ensures var after := PublicKey(WithoutFile(dir, PublicFile(dir.root, k)), name);
      if SameFile(dir.root, name, k) then after.Err? else after == PublicKey(dir, name)
  {
    FilesShared(dir.root, name, k);
  }

  lemma RemovedPrivateKey(dir: Directory, k: Name, name: Name, key: Key)
    ensures Has(WithoutKey(dir, k), name, key) <==> Has(dir, name, key) && !SameFile(dir.root, name, k)
  {
    FilesShared(dir.root, name, k);
  }

  lemma PlacePublicKeepsIff(s: State, w: string, k: Name, key: Key)
    requires Safe(s) && w in s.writers
    ensures Safe(Next(s, PlacePublic(w, k, key))) <==> Keeps(s, PlacePublic(w, k, key))
  {
    var writer := s.writers[w];
    var after := writer.(dir := WithPublic(writer.dir, k, key));
    assert WriterSafe(s, w);
    forall i | 0 <= i < |writer.active| && writer.running ensures PublicKey(after.dir, writer.active[i]).Ok? {
      assert PublicKey(writer.dir, writer.active[i]).Ok?;
    }
    WriterKeepsIff(s, w, after);
  }

  lemma RemovePublicKeepsIff(s: State, w: string, k: Name)
    requires Safe(s) && w in s.writers
    ensures Safe(Next(s, RemovePublic(w, k))) <==> Keeps(s, RemovePublic(w, k))
  {
    var writer := s.writers[w];
    var after := Next(s, RemovePublic(w, k)).writers[w];
    assert WriterSafe(s, w);
    if writer.running {
      if Reaches(writer.dir.root, NamesIn(writer.active), k) {
        var name :| name in NamesIn(writer.active) && SameFile(writer.dir.root, name, k);
        var i :| 0 <= i < |writer.active| && writer.active[i] == name;
        RemovedPublicKey(writer.dir, k, name);
        assert !CanPublish(after);
      } else {
        UnreachedPublicKeys(writer, after, k);
      }
    }
    WriterKeepsIff(s, w, after);
  }

  lemma UnreachedPublicKeys(writer: Writer, after: Writer, k: Name)
    requires CanPublish(writer) && !Reaches(writer.dir.root, NamesIn(writer.active), k)
    requires after == writer.(dir := WithoutFile(writer.dir, PublicFile(writer.dir.root, k)))
    ensures CanPublish(after) && Sends(after) == Sends(writer)
  {
    forall name | name in NamesIn(writer.active) ensures PublicKey(after.dir, name) == PublicKey(writer.dir, name) {
      RemovedPublicKey(writer.dir, k, name);
    }
    forall i | 0 <= i < |writer.active| ensures PublicKey(after.dir, writer.active[i]).Ok? {
      assert writer.active[i] in NamesIn(writer.active);
    }
  }

  /** Changing one deliverer's directory, or adding one, is safe exactly when the new directory serves. */
  lemma DirectoryKeepsIff(s: State, d: string, dir: Directory)
    requires Safe(s)
    ensures Safe(s.(deliverers := s.deliverers[d := dir])) <==> Serves(s, dir)
  {
    var s' := s.(deliverers := s.deliverers[d := dir]);
    forall w | w in s.writers
      ensures WriterSafe(s', w) <==> (s.writers[w].running ==> Opens(dir, Sends(s.writers[w])))
    {
      assert WriterSafe(s, w);
      assert s'.deliverers[d] == dir;
    }
    forall m | m in s.unacked ensures MessageSafe(s', m) <==> Opens(dir, s.unacked[m]) {
      assert MessageSafe(s, m);
      assert s'.deliverers[d] == dir;
    }
  }

  /** Replacing one writer's state is safe exactly when that writer is. */
  lemma WriterKeepsIff(s: State, w: string, writer: Writer)
    requires Safe(s)
    ensures var s' := s.(writers := s.writers[w := writer]);
      Safe(s') <==> WriterSafe(s', w) && (writer.running ==> writer.active != [])
  {
    var s' := s.(writers := s.writers[w := writer]);
    forall v | v in s'.writers && v != w ensures WriterSafe(s', v) {
      assert WriterSafe(s, v);
    }
    forall m | m in s'.unacked ensures MessageSafe(s', m) {
      assert MessageSafe(s, m);
    }
  }

  lemma PublishKeeps(s: State, w: string, m: MessageId)
    requires Safe(s) && Possible(s, Publish(w, m))
    ensures Safe(Next(s, Publish(w, m)))
  {
    ShapeKept(s, Publish(w, m));
    var s' := Next(s, Publish(w, m));
    assert WriterSafe(s, w);
    forall v | v in s'.writers ensures WriterSafe(s', v) {
      assert WriterSafe(s, v);
    }
    forall k | k in s'.unacked ensures MessageSafe(s', k) {
      assert k != m ==> MessageSafe(s, k);
    }
  }

  lemma TrafficKeeps(s: State, step: Step)
    requires Safe(s) && Possible(s, step) && (step.Publish? || step.Consume? || step.Acknowledge?)
    ensures Safe(Next(s, step))
  {
    var s' := Next(s, step);
    ShapeKept(s, step);
    match step
    case Publish(w, m) => PublishKeeps(s, w, m);
    case Consume(d, m) => assert MessageSafe(s, m) && s' == s;
    case Acknowledge(m) =>
      forall v | v in s'.writers ensures WriterSafe(s', v) {
        assert WriterSafe(s, v);
      }
      forall k | k in s'.unacked ensures MessageSafe(s', k) {
        assert MessageSafe(s, k);
      }
  }

  /** From a safe state, a step leads to a safe state if and only if its condition holds. */
  lemma StepKeepsIff(s: State, step: Step)
    requires Safe(s) && Possible(s, step)
    ensures Safe(Next(s, step)) <==> Keeps(s, step)
  {
    match step
    case PlacePublic(w, k, key) => PlacePublicKeepsIff(s, w, k, key);
    case RemovePublic(w, k) => RemovePublicKeepsIff(s, w, k);
    case PlacePrivate(d, k, key) => DirectoryKeepsIff(s, d, WithPrivate(s.deliverers[d], k, key));
    case RemovePrivate(d, k) => DirectoryKeepsIff(s, d, WithoutKey(s.deliverers[d], k));
    case AddDeliverer(d, dir) => DirectoryKeepsIff(s, d, dir);
    case StopWriter(w) => WriterKeepsIff(s, w, s.writers[w].(running := false));
    case StartWriter(w, csv) => WriterKeepsIff(s, w, Started(s.writers[w], csv));
    case _ => TrafficKeeps(s, step);
  }

  // --- The runbook ------------------------------------------------------------------------------------

  /** A running writer encrypts to a name that leads to k's key file, or a pending message is encrypted to one. */
  predicate FileInUse(s: State, root: Path, k: Name) {
    || (exists w | w in s.writers && s.writers[w].running :: Reaches(root, NamesIn(s.writers[w].active), k))
    || (exists m | m in s.unacked :: Reaches(root, s.unacked[m].Keys, k))
  }

  /** The file can be written without changing one that is there: keys get new names. */
  predicate IsNew(dir: Directory, file: Path, key: Key) {
    file in dir.files ==> dir.files[file] == key
  }

  /** The directory has every key the message is encrypted to. */
  predicate HasAll(dir: Directory, sealed: Sealed) {
    forall name | name in sealed :: Has(dir, name, sealed[name])
  }

  /**
   * The runbook's ordering rules: a new key gets a new name; its private file reaches every deliverer before a writer
   * starts encrypting to it; a file is removed only when no running writer uses it and no pending message does.
   */
  predicate FollowsRunbook(s: State, step: Step)
    requires Possible(s, step)
  {
    match step
    case PlacePublic(w, k, key) => IsNew(s.writers[w].dir, PublicFile(s.writers[w].dir.root, k), key)
    case PlacePrivate(d, k, key) => IsNew(s.deliverers[d], PrivateFile(s.deliverers[d].root, k), key)
    case StartWriter(w, csv) =>
      forall d | d in s.deliverers :: HasAll(s.deliverers[d], Seal(s.writers[w].dir, KeyNames.Parse(csv)))
    case RemovePublic(w, k) => s.writers[w].running ==> !Reaches(s.writers[w].dir.root, NamesIn(s.writers[w].active), k)
    case RemovePrivate(d, k) => !FileInUse(s, s.deliverers[d].root, k)
    case AddDeliverer(d, dir) =>
      && (forall w | w in s.writers && s.writers[w].running :: HasAll(dir, Sends(s.writers[w])))
      && (forall m | m in s.unacked :: HasAll(dir, s.unacked[m]))
    case _ => true
  }

  lemma PlacedPublicChangesNothing(writer: Writer, k: Name, key: Key)
    requires CanPublish(writer) && IsNew(writer.dir, PublicFile(writer.dir.root, k), key)
    ensures Seal(WithPublic(writer.dir, k, key), writer.active) == Sends(writer)
  {
    forall name | name in NamesIn(writer.active)
      ensures PublicKey(WithPublic(writer.dir, k, key), name) == PublicKey(writer.dir, name)
    {
      var i :| 0 <= i < |writer.active| && writer.active[i] == name;
    }
  }

  lemma PlacedPrivateStaysOpen(dir: Directory, k: Name, key: Key, sealed: Sealed)
    requires Opens(dir, sealed) && IsNew(dir, PrivateFile(dir.root, k), key)
    ensures Opens(WithPrivate(dir, k, key), sealed)
  {
    var name :| name in sealed && Has(dir, name, sealed[name]);
    assert Has(WithPrivate(dir, k, key), name, sealed[name]);
  }

  lemma UnreachedStaysOpen(dir: Directory, k: Name, sealed: Sealed)
    requires Opens(dir, sealed) && !Reaches(dir.root, sealed.Keys, k)
    ensures Opens(WithoutKey(dir, k), sealed)
  {
    var name :| name in sealed && Has(dir, name, sealed[name]);
    assert name in sealed.Keys;
    RemovedPrivateKey(dir, k, name, sealed[name]);
  }

  lemma HasAllOpens(dir: Directory, sealed: Sealed)
    requires sealed != map[] && HasAll(dir, sealed)
    ensures Opens(dir, sealed)
  {
    var name :| name in sealed;
    assert Has(dir, name, sealed[name]);
  }

  lemma UnusedKeyServes(s: State, d: string, k: Name)
    requires Safe(s) && d in s.deliverers && !FileInUse(s, s.deliverers[d].root, k)
    ensures Serves(s, WithoutKey(s.deliverers[d], k))
  {
    forall w | w in s.writers && s.writers[w].running
      ensures Opens(WithoutKey(s.deliverers[d], k), Sends(s.writers[w]))
    {
      assert WriterSafe(s, w);
      SentUnderAName(s.writers[w]);
      UnreachedStaysOpen(s.deliverers[d], k, Sends(s.writers[w]));
    }
    forall m | m in s.unacked ensures Opens(WithoutKey(s.deliverers[d], k), s.unacked[m]) {
      assert MessageSafe(s, m);
      UnreachedStaysOpen(s.deliverers[d], k, s.unacked[m]);
    }
  }

  lemma NewKeyServes(s: State, d: string, k: Name, key: Key)
    requires Safe(s) && d in s.deliverers && IsNew(s.deliverers[d], PrivateFile(s.deliverers[d].root, k), key)
    ensures Serves(s, WithPrivate(s.deliverers[d], k, key))
  {
    forall w | w in s.writers && s.writers[w].running
      ensures Opens(WithPrivate(s.deliverers[d], k, key), Sends(s.writers[w]))
    {
      assert WriterSafe(s, w);
      PlacedPrivateStaysOpen(s.deliverers[d], k, key, Sends(s.writers[w]));
    }
    forall m | m in s.unacked ensures Opens(WithPrivate(s.deliverers[d], k, key), s.unacked[m]) {
      assert MessageSafe(s, m);
      PlacedPrivateStaysOpen(s.deliverers[d], k, key, s.unacked[m]);
    }
  }

  /** Every step the runbook allows keeps the system safe. */
  lemma RunbookKeeps(s: State, step: Step)
    requires Safe(s) && Possible(s, step) && FollowsRunbook(s, step)
    ensures Keeps(s, step)
  {
    match step
    case PlacePublic(w, k, key) =>
      assert WriterSafe(s, w);
      if s.writers[w].running {
        PlacedPublicChangesNothing(s.writers[w], k, key);
      }
    case PlacePrivate(d, k, key) => NewKeyServes(s, d, k, key);
    case RemovePrivate(d, k) => UnusedKeyServes(s, d, k);
    case AddDeliverer(d, dir) =>
      forall w | w in s.writers && s.writers[w].running ensures Opens(dir, Sends(s.writers[w])) {
        assert WriterSafe(s, w);
        SentUnderAName(s.writers[w]);
        HasAllOpens(dir, Sends(s.writers[w]));
      }
      forall m | m in s.unacked ensures Opens(dir, s.unacked[m]) {
        HasAllOpens(dir, s.unacked[m]);
      }
    case StartWriter(w, csv) =>
      var started := Writer(s.writers[w].dir, true, KeyNames.Parse(csv));
      if Loads(started.dir, started.active) {
        SentUnderAName(started);
        forall d | d in s.deliverers ensures Opens(s.deliverers[d], Sends(started)) {
          HasAllOpens(s.deliverers[d], Sends(started));
        }
      }
    case _ =>
  }

  /** Whole runs: the state some steps lead to, if each is possible and follows the runbook. */
  predicate RunFollows(s: State, steps: seq<Step>, end: State)
    decreases |steps|
  {
    if steps == [] then end == s
    else
      && Possible(s, steps[0]) && FollowsRunbook(s, steps[0])
      && RunFollows(Next(s, steps[0]), steps[1..], end)
  }

  /**
   * Over any number of rotations and any interleaving that follows the runbook, no message is met that cannot
   * be opened, no publish fails, and at the end every pending message and every running writer is served.
   */
  lemma {:induction false} RunbookIsSafe(s: State, steps: seq<Step>, end: State)
    requires Safe(s) && RunFollows(s, steps, end)
    ensures Safe(end)
    decreases |steps|
  {
    if steps != [] {
      RunbookKeeps(s, steps[0]);
      StepKeepsIff(s, steps[0]);
      RunbookIsSafe(Next(s, steps[0]), steps[1..], end);
    }
  }

  // --- The condition is the weakest ---------------------------------------------------------------------

  predicate RunPossible(s: State, steps: seq<Step>, end: State)
    decreases |steps|
  {
    if steps == [] then end == s
    else Possible(s, steps[0]) && RunPossible(Next(s, steps[0]), steps[1..], end)
  }

  predicate IsTraffic(steps: seq<Step>) {
    forall i | 0 <= i < |steps| :: steps[i].Publish? || steps[i].Consume? || steps[i].Acknowledge?
  }

  lemma {:induction false} TrafficStaysSafe(s: State, steps: seq<Step>, end: State)
    requires Safe(s) && IsTraffic(steps) && RunPossible(s, steps, end)
    ensures Safe(end)
    decreases |steps|
  {
    if steps != [] {
      TrafficKeeps(s, steps[0]);
      TrafficStaysSafe(Next(s, steps[0]), steps[1..], end);
    }
  }

  lemma {:induction false} UnusedId(published: set<MessageId>) returns (bound: MessageId)
    ensures forall m | m in published :: m < bound
  {
    bound := 0;
    if m :| m in published {
      var rest := UnusedId(published - {m});
      bound := if rest > m then rest else m + 1;
      forall k | k in published ensures k < bound {
        assert k == m || k in published - {m};
      }
    }
  }

  lemma TwoSteps(s: State, a: Step, b: Step)
    requires Possible(s, a) && Possible(Next(s, a), b)
    ensures RunPossible(s, [a, b], Next(Next(s, a), b))
  {
    assert [a, b][1..] == [b];
    assert [b][1..] == [];
  }

  /** Ordinary traffic alone breaks a system in which some message or some writer is not safe. */
  lemma UnsafeBreaks(s: State) returns (steps: seq<Step>, end: State)
    requires Shaped(s) && !Broken(s) && !Safe(s)
    ensures IsTraffic(steps) && |steps| <= 2 && RunPossible(s, steps, end) && Broken(end)
  {
    if m :| m in s.unacked && !MessageSafe(s, m) {
      var d :| d in s.deliverers && !Opens(s.deliverers[d], s.unacked[m]);
      steps, end := [Consume(d, m)], Next(s, Consume(d, m));
      assert steps[1..] == [];
    } else {
      var w :| w in s.writers && !WriterSafe(s, w);
      var unused := UnusedId(s.published);
      var publish := Publish(w, unused);
      if !CanPublish(s.writers[w]) {
        steps, end := [publish], Next(s, publish);
        assert steps[1..] == [];
      } else {
        var d :| d in s.deliverers && !Opens(s.deliverers[d], Sends(s.writers[w]));
        TwoSteps(s, publish, Consume(d, unused));
        steps, end := [publish, Consume(d, unused)], Next(Next(s, publish), Consume(d, unused));
      }
    }
  }

  /** Being safe is exactly what ordinary traffic needs: a state is safe if and only if no traffic can break it. */
  lemma SafeIffTrafficUnbroken(s: State)
    requires Shaped(s) && !Broken(s)
    ensures Safe(s) <==> forall steps, end | IsTraffic(steps) && RunPossible(s, steps, end) :: !Broken(end)
  {
    if Safe(s) {
      forall steps, end | IsTraffic(steps) && RunPossible(s, steps, end) ensures !Broken(end) {
        TrafficStaysSafe(s, steps, end);
      }
    } else {
      var steps, end := UnsafeBreaks(s);
    }
  }

  /** A step that violates its condition is one publish and one consume away from a violation or a failed publish. */
  lemma OtherwiseBreaks(s: State, step: Step) returns (steps: seq<Step>, end: State)
    requires Safe(s) && Possible(s, step)
    ensures !Keeps(s, step) ==>
      IsTraffic(steps) && |steps| <= 2 && RunPossible(Next(s, step), steps, end) && Broken(end)
  {
    StepKeepsIff(s, step);
    ShapeKept(s, step);
    steps, end := [], Next(s, step);
    if !Keeps(s, step) && !Broken(end) {
      steps, end := UnsafeBreaks(end);
    }
  }

  // --- When a private key may go ---------------------------------------------------------------------------

  /** Some name that does not lead to k's file leads to a key that opens the message. */
  predicate OpensWithout(dir: Directory, sealed: Sealed, k: Name) {
    exists name | name in sealed :: !SameFile(dir.root, name, k) && Has(dir, name, sealed[name])
  }

  lemma OpensAfterRemovalIff(dir: Directory, k: Name, sealed: Sealed)
    ensures Opens(WithoutKey(dir, k), sealed) <==> OpensWithout(dir, sealed, k)
  {
    forall name | name in sealed
      ensures Has(WithoutKey(dir, k), name, sealed[name]) <==>
              !SameFile(dir.root, name, k) && Has(dir, name, sealed[name])
    {
      RemovedPrivateKey(dir, k, name, sealed[name]);
    }
  }

  /**
   * Whatever rule led to it, a removal is safe if and only if all that running writers send and all that is pending
   * opens without the file.
   */
  lemma RemovalSafeIff(s: State, d: string, k: Name)
    requires Safe(s) && d in s.deliverers
    ensures Safe(Next(s, RemovePrivate(d, k))) <==>
            && (forall w | w in s.writers && s.writers[w].running ::
                  OpensWithout(s.deliverers[d], Sends(s.writers[w]), k))
            && (forall m | m in s.unacked :: OpensWithout(s.deliverers[d], s.unacked[m], k))
  {
    var dir := s.deliverers[d];
    forall sealed ensures Opens(WithoutKey(dir, k), sealed) <==> OpensWithout(dir, sealed, k) {
      OpensAfterRemovalIff(dir, k, sealed);
    }
    StepKeepsIff(s, RemovePrivate(d, k));
  }

  lemma RemovalStrands(s: State, w: string, d: string, k: Name)
    requires Safe(s) && d in s.deliverers && w in s.writers && s.writers[w].running
    requires !OpensWithout(s.deliverers[d], Sends(s.writers[w]), k)
    ensures !Safe(Next(s, RemovePrivate(d, k)))
  {
    RemovalSafeIff(s, d, k);
  }

  /** The runbook's rule read by names: no running writer lists k, no pending message names it. */
  predicate NameInUse(s: State, k: Name) {
    || (exists w | w in s.writers && s.writers[w].running :: k in NamesIn(s.writers[w].active))
    || (exists m | m in s.unacked :: k in s.unacked[m])
  }

  /** Some name in use is another spelling of k. */
  predicate SpelledOtherwise(s: State, root: Path, k: Name) {
    || (exists w, name | w in s.writers && s.writers[w].running && name in s.writers[w].active ::
          name != k && SameFile(root, name, k))
    || (exists m, name | m in s.unacked && name in s.unacked[m] :: name != k && SameFile(root, name, k))
  }

  lemma FileOrName(s: State, root: Path, k: Name)
    ensures FileInUse(s, root, k) <==> NameInUse(s, k) || SpelledOtherwise(s, root, k)
  {
    if NameInUse(s, k) {
      assert SameFile(root, k, k);
    }
  }

  /** Reading the rule by names is reading it by files if and only if an unused k has no other spelling in use. */
  lemma NamesSufficeIff(s: State, root: Path, k: Name)
    ensures (FileInUse(s, root, k) <==> NameInUse(s, k)) <==> NameInUse(s, k) || !SpelledOtherwise(s, root, k)
  {
    FileOrName(s, root, k);
  }

  predicate PlainNames(s: State) {
    && (forall w, name | w in s.writers && s.writers[w].running && name in s.writers[w].active :: IsPlain(name))
    && (forall m, name | m in s.unacked && name in s.unacked[m] :: IsPlain(name))
  }

  /** As long as key names are no paths, there is no other spelling. */
  lemma PlainNamesSuffice(s: State, root: Path, k: Name)
    requires PlainNames(s) && IsPlain(k)
    ensures FileInUse(s, root, k) <==> NameInUse(s, k)
  {
    forall name | IsPlain(name) ensures SameFile(root, name, k) <==> name == k {
      PlainNamesSeparate(root, name, k);
    }
    FileOrName(s, root, k);
  }

  /** Remove a key file as soon as no writer uses it and every pending message has some other key as well. */
  predicate NothingOnOldKeyOnly(s: State, root: Path, k: Name) {
    && (forall w | w in s.writers && s.writers[w].running :: !Reaches(root, NamesIn(s.writers[w].active), k))
    && (forall m | m in s.unacked :: exists name | name in s.unacked[m] :: !SameFile(root, name, k))
  }

  /** Under that rule a removal is safe if and only if each pending message has another key that is still there. */
  lemma OldKeyOnlySafeIff(s: State, d: string, k: Name)
    requires Safe(s) && d in s.deliverers && NothingOnOldKeyOnly(s, s.deliverers[d].root, k)
    ensures Safe(Next(s, RemovePrivate(d, k))) <==>
            forall m | m in s.unacked :: OpensWithout(s.deliverers[d], s.unacked[m], k)
  {
    RemovalSafeIff(s, d, k);
    var dir := s.deliverers[d];
    forall w | w in s.writers && s.writers[w].running ensures OpensWithout(dir, Sends(s.writers[w]), k) {
      assert WriterSafe(s, w);
      SentUnderAName(s.writers[w]);
      UnreachedStaysOpen(dir, k, Sends(s.writers[w]));
      OpensAfterRemovalIff(dir, k, Sends(s.writers[w]));
    }
  }
}
