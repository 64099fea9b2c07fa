/** The writer's list of active encryption key names (internal/writer/config). */
module KeyNames {
  import opened Text

  /** What the list means: the trimmed entries, in order, without the empty ones. */
  function TrimAndDropEmpty(entries: seq<string>): seq<string> {
    if entries == [] then []
    else
      var kept := TrimAndDropEmpty(entries[..|entries| - 1]);
      var name := TrimSpace(entries[|entries| - 1]);
      if name == "" then kept else kept + [name]
  }

  function Parse(csv: string): seq<string> {
    TrimAndDropEmpty(Split(csv, ','))
  }

  /** A name as it can come out of the list. */
  predicate IsName(name: string) {
    name != "" && IsTrimmed(name) && ',' !in name
  }

  /**
   * Compaction of a slice over its own backing array: `raw[..kept]` and the entries still
   * to be read share storage, and no entry is overwritten before it has been read.
   */
  method CompactInPlace(raw: array<string>) returns (kept: nat)
    modifies raw
    ensures kept <= raw.Length
    ensures raw[..kept] == TrimAndDropEmpty(old(raw[..]))
    ensures forall m | kept <= m < raw.Length :: raw[m] == old(raw[m])
  {
    kept := 0;
    for i := 0 to raw.Length
      invariant kept <= i
      invariant forall m | kept <= m < raw.Length :: raw[m] == old(raw[m])
      invariant raw[..kept] == TrimAndDropEmpty(old(raw[..i]))
    {
      var s := TrimSpace(raw[i]);
      assert old(raw[..i + 1])[..i] == old(raw[..i]);
      if s != "" {
        raw[kept] := s;
        kept := kept + 1;
        assert raw[..kept] == raw[..kept - 1] + [s];
      }
    }
    assert old(raw[..raw.Length]) == old(raw[..]);
  }

  method EncryptionKeyNames(csv: string) returns (names: seq<string>)
    ensures names == Parse(csv)
    ensures forall name | name in names :: IsName(name)
  {
    var parts := Split(csv, ',');
    var raw := new string[|parts|](i requires 0 <= i < |parts| => parts[i]);
    assert raw[..] == parts;
    var kept := CompactInPlace(raw);
    names := raw[..kept];
    ParsedNamesAreNames(csv);
  }

  lemma {:induction false} KeptNamesAreNames(entries: seq<string>)
    requires forall i | 0 <= i < |entries| :: ',' !in entries[i]
    ensures forall name | name in TrimAndDropEmpty(entries) :: IsName(name)
  {
    if entries != [] {
      KeptNamesAreNames(entries[..|entries| - 1]);
      var i, j := TrimSpaceSlice(entries[|entries| - 1]);
    }
  }

  /** Every parsed name is non-empty, trimmed and free of commas. */
  lemma ParsedNamesAreNames(csv: string)
    ensures forall name | name in Parse(csv) :: IsName(name)
  {
    SplitPieceFree(csv, ',');
    KeptNamesAreNames(Split(csv, ','));
  }

  lemma {:induction false} NamesAreKept(names: seq<string>)
    requires forall name | name in names :: IsName(name)
    ensures TrimAndDropEmpty(names) == names
  {
    if names != [] {
      var last := names[|names| - 1];
      NamesAreKept(names[..|names| - 1]);
      assert last in names;
      TrimSpaceFixed(last);
      assert names == names[..|names| - 1] + [last];
    }
  }

  /** Parsing the comma-join of any list of names returns that list. */
  lemma ParseJoin(names: seq<string>)
    requires forall name | name in names :: IsName(name)
    ensures Parse(Join(names, ',')) == names
  {
    if names == [] {
      assert Split("", ',') == [""];
      assert [""][..0] == [];
    } else {
      forall i | 0 <= i < |names| ensures ',' !in names[i] {
        assert names[i] in names;
      }
      SplitJoin(names, ',');
      NamesAreKept(names);
    }
  }

  /** Parsing is idempotent up to rendering: parse, join, parse gives what the first parse gave. */
  lemma ParseJoinParse(csv: string)
    ensures Parse(Join(Parse(csv), ',')) == Parse(csv)
  {
    ParsedNamesAreNames(csv);
    ParseJoin(Parse(csv));
  }

  /** Some entry of the list trims to name. */
  predicate Lists(entries: seq<string>, name: string) {
    exists i :: 0 <= i < |entries| && TrimSpace(entries[i]) == name
  }

  lemma {:induction false} KeptIffListed(entries: seq<string>, name: string)
    ensures name in TrimAndDropEmpty(entries) <==> name != "" && Lists(entries, name)
  {
    if entries != [] {
      var front := entries[..|entries| - 1];
      KeptIffListed(front, name);
      assert Lists(front, name) ==> Lists(entries, name) by {
        if Lists(front, name) {
          var k :| 0 <= k < |front| && TrimSpace(front[k]) == name;
          assert TrimSpace(entries[k]) == name;
        }
      }
      if Lists(entries, name) {
        var i :| 0 <= i < |entries| && TrimSpace(entries[i]) == name;
        assert i < |front| ==> TrimSpace(front[i]) == name;
      }
    }
  }

  /** A name is active exactly when some comma-separated entry trims to it; blank entries never count. */
  lemma ActiveIffListed(csv: string, name: string)
    ensures name in Parse(csv) <==> name != "" && Lists(Split(csv, ','), name)
  {
    KeptIffListed(Split(csv, ','), name);
  }
}
