/** Small fleets on which two readings of the runbook's rule about removing keys go wrong. */
module RotationExamples {
  import opened Text
  import opened Keys
  import opened Rotation
  import KeyNames

  // --- Two rotations, and a key removed once no message is on it alone --------------------------------------------

  lemma ParsedLists()
    ensures KeyNames.Parse("v1,v2") == ["v1", "v2"]
    ensures KeyNames.Parse("v2,v3") == ["v2", "v3"]
    ensures KeyNames.Parse("v3") == ["v3"]
  {
    KeyNames.ParseJoin(["v1", "v2"]);
    KeyNames.ParseJoin(["v2", "v3"]);
    KeyNames.ParseJoin(["v3"]);
    assert Join(["v1", "v2"], ',') == "v1,v2" && Join(["v2", "v3"], ',') == "v2,v3" && Join(["v3"], ',') == "v3";
  }

  function Private(name: Name): Path {
    PrivateFile([], name)
  }

  function Public(name: Name): Path {
    PublicFile([], name)
  }

  const PUBLIC_DIR := Directory([], map[Public("v1") := "v1", Public("v2") := "v2", Public("v3") := "v3"])
  const PRIVATE_DIR := Directory([], map[Private("v1") := "v1", Private("v2") := "v2", Private("v3") := "v3"])
  const WITHOUT_V1 := Directory([], map[Private("v2") := "v2", Private("v3") := "v3"])
  const WITHOUT_V2 := Directory([], map[Private("v3") := "v3"])

  const VERSIONS: set<Name> := {"v1", "v2", "v3"}

  lemma VersionsSeparate()
    ensures forall a, b | a in VERSIONS && b in VERSIONS :: SameFile([], a, b) <==> a == b
    ensures forall a, b | a in VERSIONS && b in VERSIONS :: Private(a) == Private(b) <==> a == b
    ensures forall a, b | a in VERSIONS && b in VERSIONS :: Public(a) == Public(b) <==> a == b
    ensures "v1" != "v2" && "v1" != "v3" && "v2" != "v3"
  {
    forall a, b | a in VERSIONS && b in VERSIONS
      ensures SameFile([], a, b) <==> a == b
      ensures Private(a) == Private(b) <==> a == b
      ensures Public(a) == Public(b) <==> a == b
    {
      PlainNamesSeparate([], a, b);
      FilesShared([], a, b);
    }
  }

  const FIRST_MESSAGE: Sealed := map["v1" := "v1", "v2" := "v2"]
  const PENDING: map<MessageId, Sealed> := map[0 := FIRST_MESSAGE]

  /** One writer with these active names, one deliverer with these keys, these messages pending. */
  function Fleet(active: seq<Name>, dir: Directory, unacked: map<MessageId, Sealed>): State {
    State(map["w" := Writer(PUBLIC_DIR, true, active)], map["d" := dir], unacked.Keys, unacked, 0, 0)
  }

  predicate Listed(names: seq<Name>) {
    names != [] && forall i | 0 <= i < |names| :: names[i] in VERSIONS
  }

  lemma NamesListed()
    ensures Listed(["v1", "v2"]) && Listed(["v2", "v3"]) && Listed(["v3"]) && Listed(["v1"])
  {
  }

  lemma VersionKeys(name: Name)
    requires name in VERSIONS
    ensures PublicKey(PUBLIC_DIR, name).Ok? && PublicKey(PUBLIC_DIR, name).value.key == name
    ensures Has(PRIVATE_DIR, name, name)
    ensures Has(WITHOUT_V1, name, name) <==> name != "v1"
    ensures Has(WITHOUT_V2, name, name) <==> name == "v3"
  {
    VersionsSeparate();
    assert name == "v1" || name == "v2" || name == "v3";
  }

  lemma ListedPublish(names: seq<Name>)
    requires Listed(names)
    ensures Loads(PUBLIC_DIR, names)
    ensures Seal(PUBLIC_DIR, names).Keys == NamesIn(names)
    ensures forall name | name in Seal(PUBLIC_DIR, names) :: Seal(PUBLIC_DIR, names)[name] == name
  {
    forall i | 0 <= i < |names| ensures PublicKey(PUBLIC_DIR, names[i]).Ok? && names[i] in NamesIn(names) {
      VersionKeys(names[i]);
    }
    forall name | name in NamesIn(names) ensures PublicKey(PUBLIC_DIR, name) == Ok(KeyInfo(name, name)) {
      VersionKeys(name);
    }
  }

  /** The runbook with its condition for removing a private key replaced by that rule. */
  predicate FollowsOldKeyOnly(s: State, step: Step)
    requires Possible(s, step)
  {
    if step.RemovePrivate? then NothingOnOldKeyOnly(s, s.deliverers[step.d].root, step.k) else FollowsRunbook(s, step)
  }

  predicate RunFollowsOldKeyOnly(s: State, steps: seq<Step>, end: State)
    decreases |steps|
  {
    if steps == [] then end == s
    else
      && Possible(s, steps[0]) && FollowsOldKeyOnly(s, steps[0])
      && RunFollowsOldKeyOnly(Next(s, steps[0]), steps[1..], end)
  }

  lemma Prepend(s: State, step: Step, rest: seq<Step>, end: State)
    requires Possible(s, step) && FollowsOldKeyOnly(s, step)
    requires RunFollowsOldKeyOnly(Next(s, step), rest, end)
    ensures RunFollowsOldKeyOnly(s, [step] + rest, end)
  {
    assert ([step] + rest)[1..] == rest;
  }

  lemma FleetMayRestart(dir: Directory, names: seq<Name>)
    requires Listed(names) && forall i | 0 <= i < |names| :: Has(dir, names[i], names[i])
    ensures HasAll(dir, Seal(PUBLIC_DIR, names))
  {
    ListedPublish(names);
    forall name | name in NamesIn(names) ensures Has(dir, name, name) {
      var i :| 0 <= i < |names| && names[i] == name;
    }
  }

  lemma FleetFollows(
    active: seq<Name>, dir: Directory, unacked: map<MessageId, Sealed>, csv: string, names: seq<Name>)
    requires KeyNames.Parse(csv) == names && HasAll(dir, Seal(PUBLIC_DIR, names))
    ensures FollowsOldKeyOnly(Fleet(active, dir, unacked), StartWriter("w", csv))
  {
    var s := Fleet(active, dir, unacked);
    assert s.writers["w"].dir == PUBLIC_DIR;
    forall d | d in s.deliverers ensures HasAll(s.deliverers[d], Seal(PUBLIC_DIR, names)) {
      assert s.deliverers[d] == dir;
    }
  }

  lemma FleetRestarts(
    active: seq<Name>, dir: Directory, unacked: map<MessageId, Sealed>, csv: string, names: seq<Name>)
    requires KeyNames.Parse(csv) == names && Loads(PUBLIC_DIR, names)
    ensures Next(Fleet(active, dir, unacked), StartWriter("w", csv)) == Fleet(names, dir, unacked)
  {
    assert Started(Writer(PUBLIC_DIR, true, active), csv) == Writer(PUBLIC_DIR, true, names);
  }

  /** The writer is restarted with other names. */
  lemma Restarted(active: seq<Name>, dir: Directory, unacked: map<MessageId, Sealed>, csv: string, names: seq<Name>,
                  rest: seq<Step>, end: State)
    requires KeyNames.Parse(csv) == names && Listed(names)
    requires forall i | 0 <= i < |names| :: Has(dir, names[i], names[i])
    requires RunFollowsOldKeyOnly(Fleet(names, dir, unacked), rest, end)
    ensures RunFollowsOldKeyOnly(Fleet(active, dir, unacked), [StartWriter("w", csv)] + rest, end)
  {
    ListedPublish(names);
    FleetMayRestart(dir, names);
    FleetFollows(active, dir, unacked, csv, names);
    FleetRestarts(active, dir, unacked, csv, names);
    Prepend(Fleet(active, dir, unacked), StartWriter("w", csv), rest, end);
  }

  lemma FirstMessageSealed()
    ensures Seal(PUBLIC_DIR, ["v1", "v2"]) == FIRST_MESSAGE
  {
    NamesListed();
    ListedPublish(["v1", "v2"]);
    assert NamesIn(["v1", "v2"]) == {"v1", "v2"};
  }

  lemma FleetPublishes(active: seq<Name>, dir: Directory)
    requires Listed(active) && Seal(PUBLIC_DIR, active) == FIRST_MESSAGE
    ensures Next(Fleet(active, dir, map[]), Publish("w", 0)) == Fleet(active, dir, PENDING)
  {
    ListedPublish(active);
  }

  /** The first overlap's message is sent. */
  lemma Sent(rest: seq<Step>, end: State)
    requires RunFollowsOldKeyOnly(Fleet(["v1", "v2"], PRIVATE_DIR, PENDING), rest, end)
    ensures RunFollowsOldKeyOnly(Fleet(["v1", "v2"], PRIVATE_DIR, map[]), [Publish("w", 0)] + rest, end)
  {
    NamesListed();
    FirstMessageSealed();
    FleetPublishes(["v1", "v2"], PRIVATE_DIR);
    Prepend(Fleet(["v1", "v2"], PRIVATE_DIR, map[]), Publish("w", 0), rest, end);
  }

  lemma Unlisted(active: seq<Name>, k: Name, other: Name)
    requires k in VERSIONS && Listed(active) && k !in active
    requires other in VERSIONS && other != k
    ensures !Reaches([], NamesIn(active), k) && !SameFile([], other, k)
  {
    VersionsSeparate();
  }

  lemma FleetDrops(active: seq<Name>, dir: Directory, k: Name)
    ensures Next(Fleet(active, dir, PENDING), RemovePrivate("d", k)) == Fleet(active, WithoutKey(dir, k), PENDING)
  {
  }

  lemma FleetMayDrop(active: seq<Name>, dir: Directory, k: Name, other: Name)
    requires dir.root == [] && !Reaches([], NamesIn(active), k)
    requires other in PENDING[0] && !SameFile([], other, k)
    ensures FollowsOldKeyOnly(Fleet(active, dir, PENDING), RemovePrivate("d", k))
  {
    var s := Fleet(active, dir, PENDING);
    forall m | m in s.unacked ensures exists name | name in s.unacked[m] :: !SameFile([], name, k) {
      assert other in s.unacked[m];
    }
  }

  /** A private key that the rule lets go is removed. */
  lemma Dropped(active: seq<Name>, dir: Directory, k: Name, other: Name, less: Directory, rest: seq<Step>, end: State)
    requires dir.root == [] && less == WithoutKey(dir, k)
    requires k in VERSIONS && Listed(active) && k !in active
    requires other in VERSIONS && other in PENDING[0] && other != k
    requires RunFollowsOldKeyOnly(Fleet(active, less, PENDING), rest, end)
    ensures RunFollowsOldKeyOnly(Fleet(active, dir, PENDING), [RemovePrivate("d", k)] + rest, end)
  {
    Unlisted(active, k, other);
    FleetDrops(active, dir, k);
    FleetMayDrop(active, dir, k, other);
    Prepend(Fleet(active, dir, PENDING), RemovePrivate("d", k), rest, end);
  }

  lemma Met() returns (steps: seq<Step>, end: State)
    ensures RunFollowsOldKeyOnly(Fleet(["v3"], WITHOUT_V2, PENDING), steps, end) && end.violations == 1
  {
    VersionKeys("v1");
    VersionKeys("v2");
    assert !Opens(WITHOUT_V2, FIRST_MESSAGE);
    var s := Fleet(["v3"], WITHOUT_V2, PENDING);
    end := Next(s, Consume("d", 0));
    Prepend(s, Consume("d", 0), [], end);
    steps := [Consume("d", 0)] + [];
  }

  lemma DirectoriesShrink()
    ensures WITHOUT_V1 == WithoutKey(PRIVATE_DIR, "v1") && WITHOUT_V2 == WithoutKey(WITHOUT_V1, "v2")
  {
    VersionsSeparate();
    assert WITHOUT_V1.files == WithoutKey(PRIVATE_DIR, "v1").files;
    assert WITHOUT_V2.files == WithoutKey(WITHOUT_V1, "v2").files;
  }

  lemma SecondRemoval() returns (steps: seq<Step>, end: State)
    ensures RunFollowsOldKeyOnly(Fleet(["v3"], WITHOUT_V1, PENDING), steps, end) && end.violations == 1
  {
    steps, end := Met();
    DirectoriesShrink();
    NamesListed();
    Dropped(["v3"], WITHOUT_V1, "v2", "v1", WITHOUT_V2, steps, end);
    steps := [RemovePrivate("d", "v2")] + steps;
  }

  lemma SecondSwitch() returns (steps: seq<Step>, end: State)
    ensures RunFollowsOldKeyOnly(Fleet(["v2", "v3"], WITHOUT_V1, PENDING), steps, end) && end.violations == 1
  {
    steps, end := SecondRemoval();
    ParsedLists();
    NamesListed();
    VersionKeys("v3");
    Restarted(["v2", "v3"], WITHOUT_V1, PENDING, "v3", ["v3"], steps, end);
    steps := [StartWriter("w", "v3")] + steps;
  }

  lemma FirstRemoval() returns (steps: seq<Step>, end: State)
    ensures RunFollowsOldKeyOnly(Fleet(["v2", "v3"], PRIVATE_DIR, PENDING), steps, end) && end.violations == 1
  {
    steps, end := SecondSwitch();
    DirectoriesShrink();
    NamesListed();
    Dropped(["v2", "v3"], PRIVATE_DIR, "v1", "v2", WITHOUT_V1, steps, end);
    steps := [RemovePrivate("d", "v1")] + steps;
  }

  lemma PrivateKeysHeld(names: seq<Name>)
    requires Listed(names)
    ensures forall i | 0 <= i < |names| :: Has(PRIVATE_DIR, names[i], names[i])
  {
    forall i | 0 <= i < |names| ensures Has(PRIVATE_DIR, names[i], names[i]) {
      VersionKeys(names[i]);
    }
  }

  lemma SecondOverlap() returns (steps: seq<Step>, end: State)
    ensures RunFollowsOldKeyOnly(Fleet(["v1", "v2"], PRIVATE_DIR, PENDING), steps, end) && end.violations == 1
  {
    steps, end := FirstRemoval();
    ParsedLists();
    NamesListed();
    PrivateKeysHeld(["v2", "v3"]);
    Restarted(["v1", "v2"], PRIVATE_DIR, PENDING, "v2,v3", ["v2", "v3"], steps, end);
    steps := [StartWriter("w", "v2,v3")] + steps;
  }

  lemma FleetStartsSafe()
    ensures Safe(Fleet(["v1"], PRIVATE_DIR, map[]))
  {
    NamesListed();
    ListedPublish(["v1"]);
    VersionKeys("v1");
    assert "v1" in NamesIn(["v1"]) && "v1" in Seal(PUBLIC_DIR, ["v1"]);
    assert WriterSafe(Fleet(["v1"], PRIVATE_DIR, map[]), "w");
  }

  /**
   * Over two rotations the rule is not enough. A message sent in the first overlap, to v1 and v2, survives the removal
   * of v1, is not on v2 alone when v2 goes, and is then met without any key.
   */
  lemma OldKeyOnlyRuleFails() returns (start: State, steps: seq<Step>, end: State)
    ensures Safe(start) && RunFollowsOldKeyOnly(start, steps, end) && end.violations == 1
  {
    steps, end := SecondOverlap();
    Sent(steps, end);
    steps := [Publish("w", 0)] + steps;
    ParsedLists();
    NamesListed();
    PrivateKeysHeld(["v1", "v2"]);
    Restarted(["v1"], PRIVATE_DIR, map[], "v1,v2", ["v1", "v2"], steps, end);
    steps := [StartWriter("w", "v1,v2")] + steps;
    start := Fleet(["v1"], PRIVATE_DIR, map[]);
    FleetStartsSafe();
  }

  // --- A name that is a path --------------------------------------------------------------------------------------

  const PATH_WRITER := Writer(Directory([], map[Public("./v1") := "v1"]), true, ["./v1"])
  const PATH_DIR := Directory([], map[Private("./v1") := "v1"])

  /** One writer that uses "./v1", one deliverer with its key, nothing pending. */
  const PATH_FLEET := State(map["w" := PATH_WRITER], map["d" := PATH_DIR], {}, map[], 0, 0)

  lemma PathWriterSends()
    ensures CanPublish(PATH_WRITER) && Sends(PATH_WRITER) == map["./v1" := "v1"]
    ensures Opens(PATH_DIR, Sends(PATH_WRITER))
  {
    assert NamesIn(PATH_WRITER.active) == {"./v1"};
    assert "./v1" in Sends(PATH_WRITER) && Has(PATH_DIR, "./v1", "v1");
  }

  lemma PathFleetSafe()
    ensures Safe(PATH_FLEET)
  {
    PathWriterSends();
    forall w | w in PATH_FLEET.writers ensures WriterSafe(PATH_FLEET, w) {
      assert PATH_FLEET.writers[w] == PATH_WRITER;
      assert PATH_FLEET.deliverers.Keys == {"d"};
    }
  }

  lemma OnlyThePath()
    ensures !OpensWithout(PATH_DIR, Sends(PATH_WRITER), "v1")
  {
    PathWriterSends();
    PathsCanShare([], "v1");
    assert "./" + "v1" == "./v1";
  }

  lemma NobodySaysV1()
    ensures !NameInUse(PATH_FLEET, "v1")
  {
    assert "./v1" != "v1";
  }

  /** Nobody uses the name "v1", the system is safe, and removing "v1" breaks it. */
  lemma PathNamesDeceive()
    ensures Safe(PATH_FLEET) && !NameInUse(PATH_FLEET, "v1")
    ensures !Safe(Next(PATH_FLEET, RemovePrivate("d", "v1")))
  {
    PathFleetSafe();
    NobodySaysV1();
    OnlyThePath();
    RemovalStrands(PATH_FLEET, "w", "d", "v1");
  }

  /** And the other way round a slash alone does no harm: with every key in one subdirectory names and files agree. */
  lemma SubdirectoryNamesSuffice(s: State, root: Path)
    requires forall w, name | w in s.writers && s.writers[w].running && name in s.writers[w].active :: name == "a/v1"
    requires forall m, name | m in s.unacked && name in s.unacked[m] :: name == "a/v1"
    ensures FileInUse(s, root, "a/v1") <==> NameInUse(s, "a/v1")
  {
    NamesSufficeIff(s, root, "a/v1");
  }
}
