/**
 What a run of the setup script promises, stated over the walk flattened
 into its (directory, child name) entries: every name has exactly one
 outcome, requests match the digit names, writes and warnings split the
 digit names by response status, and afterwards each stored species'
 `index.json` holds its latest serialised body while nothing else changed.
 */
module WalkProperties {
  import opened Text
  import opened Effects
  import opened SetupApi

  /** One child directory name met by the walk, with the directory that lists it. */
  datatype Entry = Entry(dirPath: string, name: string)

  function LevelEntries(level: Level): (es: seq<Entry>)
    ensures |es| == |level.names|
    ensures forall k :: 0 <= k < |es| ==> es[k] == Entry(level.dirPath, level.names[k])
  {
    seq(|level.names|, k requires 0 <= k < |level.names| => Entry(level.dirPath, level.names[k]))
  }

  /** The entries of the walk in the order the two loops visit them. */
  function Entries(walk: seq<Level>): seq<Entry> {
    if |walk| == 0 then []
    else Entries(walk[..|walk| - 1]) + LevelEntries(walk[|walk| - 1])
  }

  /** The effects of handling the given entries one after the other. */
  function EntriesEffects(es: seq<Entry>, server: Server, serialize: Serializer): seq<Effect> {
    if |es| == 0 then []
    else
      var e := es[|es| - 1];
      EntriesEffects(es[..|es| - 1], server, serialize) + NameEffects(e.dirPath, e.name, server, serialize)
  }

  /** The species id `dumpInsectIndex` derives from a digit name: `int(name)`. */
  function SpeciesId(e: Entry): nat
    requires IsDigits(e.name)
  {
    DigitsValue(e.name)
  }

  /** The entry names a species whose request answers 200, so its index is written. */
  predicate Stored(e: Entry, server: Server) {
    IsDigits(e.name) && server(SpeciesUrl(SpeciesId(e))).status == 200
  }

  /** What a stored entry's `index.json` receives. */
  function IndexContent(e: Entry, server: Server, serialize: Serializer): string
    requires IsDigits(e.name)
  {
    serialize(server(SpeciesUrl(SpeciesId(e))).body)
  }

  function DigitCount(es: seq<Entry>): nat {
    if |es| == 0 then 0
    else DigitCount(es[..|es| - 1]) + (if IsDigits(es[|es| - 1].name) then 1 else 0)
  }

  function StoredCount(es: seq<Entry>, server: Server): nat {
    if |es| == 0 then 0
    else StoredCount(es[..|es| - 1], server) + (if Stored(es[|es| - 1], server) then 1 else 0)
  }

  // ---------------------------------------------------------------------
  // The nested loops handle the entries one at a time, in order.

  lemma {:induction false} EntriesEffectsConcat(a: seq<Entry>, b: seq<Entry>, server: Server, serialize: Serializer)
    ensures EntriesEffects(a + b, server, serialize)
      == EntriesEffects(a, server, serialize) + EntriesEffects(b, server, serialize)
    decreases |b|
  {
    if |b| > 0 {
      assert (a + b)[..|a + b| - 1] == a + b[..|b| - 1];
      EntriesEffectsConcat(a, b[..|b| - 1], server, serialize);
      ConcatAssoc(EntriesEffects(a, server, serialize), EntriesEffects(b[..|b| - 1], server, serialize),
        NameEffects(b[|b| - 1].dirPath, b[|b| - 1].name, server, serialize));
    } else {
      assert a + b == a;
    }
  }

  lemma {:induction false} LevelIsEntryByEntry(level: Level, server: Server, serialize: Serializer)
    ensures LevelEffects(level.dirPath, level.names, server, serialize)
      == EntriesEffects(LevelEntries(level), server, serialize)
    decreases |level.names|
  {
    var names := level.names;
    if |names| > 0 {
      var shorter := Level(level.dirPath, names[..|names| - 1]);
      LevelIsEntryByEntry(shorter, server, serialize);
      assert LevelEntries(level)[..|names| - 1] == LevelEntries(shorter);
    }
  }

  /** The nested loop's effects are those of its entries, handled in visiting order. */
  lemma {:induction false} WalkIsEntryByEntry(walk: seq<Level>, server: Server, serialize: Serializer)
    ensures WalkEffects(walk, server, serialize) == EntriesEffects(Entries(walk), server, serialize)
    decreases |walk|
  {
    if |walk| > 0 {
      var last := walk[|walk| - 1];
      WalkIsEntryByEntry(walk[..|walk| - 1], server, serialize);
      LevelIsEntryByEntry(last, server, serialize);
      EntriesEffectsConcat(Entries(walk[..|walk| - 1]), LevelEntries(last), server, serialize);
    }
  }

  // ---------------------------------------------------------------------
  // One outcome per name.

  /**
   A name that is not all digits gives one warning and no request; a digit
   name gives one request of its species URL and then exactly one write of
   its index or one warning with the status code and id.
   */
  lemma NameOutcome(dirPath: string, name: string, server: Server, serialize: Serializer)
    ensures var log := NameEffects(dirPath, name, server, serialize);
      && Count(log, WriteKind) + Count(log, WarnKind) == 1
      && Count(log, FetchKind) == (if IsDigits(name) then 1 else 0)
      && Count(log, WriteKind) == (if Stored(Entry(dirPath, name), server) then 1 else 0)
    ensures !IsDigits(name) ==> NameEffects(dirPath, name, server, serialize) == [Warn(NameWarning(name))]
    ensures IsDigits(name) ==>
      var id := DigitsValue(name);
      var info := server(SpeciesUrl(id));
      NameEffects(dirPath, name, server, serialize)
      == [Fetch(SpeciesUrl(id)),
          if info.status == 200 then Write(IndexPath(dirPath, name), serialize(info.body))
          else Warn(StatusWarning(info.status, id))]
  {
    var log := NameEffects(dirPath, name, server, serialize);
    if IsDigits(name) {
      assert |log| == 2;
      CountPair(log[0], log[1], FetchKind);
      CountPair(log[0], log[1], WriteKind);
      CountPair(log[0], log[1], WarnKind);
      assert log == [log[0], log[1]];
    } else {
      CountPair(log[0], log[0], FetchKind);
      CountPair(log[0], log[0], WriteKind);
      CountPair(log[0], log[0], WarnKind);
      assert log == [log[0]];
    }
  }

  /** Counts add up entry by entry. */
  lemma {:induction false} EntriesTally(es: seq<Entry>, server: Server, serialize: Serializer)
    ensures var log := EntriesEffects(es, server, serialize);
      && Count(log, FetchKind) == DigitCount(es)
      && Count(log, WriteKind) == StoredCount(es, server)
      && Count(log, WarnKind) == |es| - StoredCount(es, server)
      && StoredCount(es, server) <= DigitCount(es) <= |es|
    decreases |es|
  {
    if |es| > 0 {
      var e := es[|es| - 1];
      var init := EntriesEffects(es[..|es| - 1], server, serialize);
      var step := NameEffects(e.dirPath, e.name, server, serialize);
      EntriesTally(es[..|es| - 1], server, serialize);
      NameOutcome(e.dirPath, e.name, server, serialize);
      assert Entry(e.dirPath, e.name) == e;
      CountConcat(init, step, FetchKind);
      CountConcat(init, step, WriteKind);
      CountConcat(init, step, WarnKind);
    }
  }

  /**
   The walk never aborts: there is one request per digit name, one write per
   digit name whose request answered 200, and one warning for every other
   name, whatever the order and the mix of names.
   */
  lemma WalkTally(walk: seq<Level>, server: Server, serialize: Serializer)
    ensures var log := WalkEffects(walk, server, serialize);
      var es := Entries(walk);
      && Count(log, FetchKind) == DigitCount(es)
      && Count(log, WriteKind) == StoredCount(es, server)
      && Count(log, WarnKind) == |es| - StoredCount(es, server)
      && Count(log, WriteKind) + Count(log, WarnKind) == |es|
  {
    WalkIsEntryByEntry(walk, server, serialize);
    EntriesTally(Entries(walk), server, serialize);
  }

  // ---------------------------------------------------------------------
  // Index paths and the files after a run.

  /**
   Index paths of directory names (which never contain '/') are distinct:
   the path determines both the parent directory and the name.
   */
  lemma IndexPathInjective(d1: string, n1: string, d2: string, n2: string)
    requires '/' !in n1 && '/' !in n2
    requires IndexPath(d1, n1) == IndexPath(d2, n2)
    ensures d1 == d2 && n1 == n2
  {
    var p := IndexPath(d1, n1);
    var q := d1 + "/" + n1;
    assert q == p[..|p| - |IndexFileSuffix|];
    assert q == d2 + "/" + n2;
    SlashSplit(d1, n1, d2, n2);
  }

  /** Where the characters of `head + sep + tail` come from. */
  lemma SeparatorAt(head: string, sep: string, tail: string)
    requires |sep| > 0
    ensures (head + sep + tail)[|head|] == sep[0]
    ensures forall k :: 0 <= k < |head| ==> (head + sep + tail)[k] == head[k]
    ensures forall k :: |head| + |sep| <= k < |head + sep + tail| ==> (head + sep + tail)[k] == tail[k - |head| - |sep|]
  {
  }

  /** The last '/' of a path whose final part has none splits it uniquely. */
  lemma SlashSplit(d1: string, n1: string, d2: string, n2: string)
    requires '/' !in n1 && '/' !in n2
    requires d1 + "/" + n1 == d2 + "/" + n2
    ensures d1 == d2 && n1 == n2
  {
    var q := d1 + "/" + n1;
    SeparatorAt(d1, "/", n1);
    SeparatorAt(d2, "/", n2);
    if |d1| != |d2| {
      assert false;
    }
    assert d1 == q[..|d1|] == d2;
    assert n1 == q[|d1| + 1..] == n2;
  }

  lemma DigitsHaveNoSlash(s: string)
    requires IsDigits(s)
    ensures '/' !in s
  {
  }

  /** What one name does to the files: at most its own index is written. */
  lemma NameWrites(files: Files, e: Entry, server: Server, serialize: Serializer)
    ensures Apply(files, NameEffects(e.dirPath, e.name, server, serialize))
      == if Stored(e, server) then files[IndexPath(e.dirPath, e.name) := IndexContent(e, server, serialize)]
         else files
  {
    var log := NameEffects(e.dirPath, e.name, server, serialize);
    if IsDigits(e.name) {
      ApplyPair(files, log[0], log[1]);
      assert log == [log[0], log[1]];
    } else {
      ApplyPair(files, log[0], log[0]);
      assert log == [log[0]];
    }
  }

  /** A written index belongs to a stored entry and holds that entry's serialised body. */
  lemma {:induction false} WrittenOnlyIfStored(es: seq<Entry>, e: Entry, server: Server, serialize: Serializer)
    requires '/' !in e.name
    requires IndexPath(e.dirPath, e.name) in Written(EntriesEffects(es, server, serialize))
    ensures Stored(e, server)
    ensures Written(EntriesEffects(es, server, serialize))[IndexPath(e.dirPath, e.name)]
      == IndexContent(e, server, serialize)
    decreases |es|
  {
    var p := IndexPath(e.dirPath, e.name);
    if |es| == 0 {
      assert false;
    }
    var last := es[|es| - 1];
    var init := EntriesEffects(es[..|es| - 1], server, serialize);
    var step := NameEffects(last.dirPath, last.name, server, serialize);
    ApplyConcat(map[], init, step);
    NameWrites(Written(init), last, server, serialize);
    if Stored(last, server) && p == IndexPath(last.dirPath, last.name) {
      DigitsHaveNoSlash(last.name);
      IndexPathInjective(e.dirPath, e.name, last.dirPath, last.name);
      assert e == last;
    } else {
      WrittenOnlyIfStored(es[..|es| - 1], e, server, serialize);
    }
  }

  /** Every stored entry has its index written. */
  lemma {:induction false} StoredIsWritten(es: seq<Entry>, e: Entry, server: Server, serialize: Serializer)
    requires e in es && Stored(e, server)
    ensures IndexPath(e.dirPath, e.name) in Written(EntriesEffects(es, server, serialize))
    decreases |es|
  {
    var last := es[|es| - 1];
    var init := EntriesEffects(es[..|es| - 1], server, serialize);
    var step := NameEffects(last.dirPath, last.name, server, serialize);
    ApplyConcat(map[], init, step);
    NameWrites(Written(init), last, server, serialize);
    if e != last {
      assert e in es[..|es| - 1] by {
        var k :| 0 <= k < |es| && es[k] == e;
        assert k < |es| - 1;
        assert es[..|es| - 1][k] == e;
      }
      StoredIsWritten(es[..|es| - 1], e, server, serialize);
    }
  }

  /** Each written path is the index of some stored entry: no other file is touched. */
  lemma {:induction false} OnlyIndexFilesWritten(es: seq<Entry>, p: string, server: Server, serialize: Serializer)
    requires p in Written(EntriesEffects(es, server, serialize))
    ensures exists k :: 0 <= k < |es| && Stored(es[k], server) && p == IndexPath(es[k].dirPath, es[k].name)
    decreases |es|
  {
    if |es| == 0 {
      assert false;
    }
    var last := es[|es| - 1];
    var init := EntriesEffects(es[..|es| - 1], server, serialize);
    var step := NameEffects(last.dirPath, last.name, server, serialize);
    ApplyConcat(map[], init, step);
    NameWrites(Written(init), last, server, serialize);
    if Stored(last, server) && p == IndexPath(last.dirPath, last.name) {
      assert Stored(es[|es| - 1], server);
    } else {
      OnlyIndexFilesWritten(es[..|es| - 1], p, server, serialize);
      var k :| 0 <= k < |es| - 1 && Stored(es[..|es| - 1][k], server)
        && p == IndexPath(es[..|es| - 1][k].dirPath, es[..|es| - 1][k].name);
      assert es[..|es| - 1][k] == es[k];
    }
  }

  /**
   After a run over `files`, the `index.json` of every visited child name
   holds the serialised body of its species if the request answered 200, and
   is left exactly as it was otherwise (a non-digit name or another status).
   */
  lemma IndexFileAfterWalk(walk: seq<Level>, files: Files, e: Entry, server: Server, serialize: Serializer)
    requires e in Entries(walk) && '/' !in e.name
    ensures var after := Apply(files, WalkEffects(walk, server, serialize));
      var p := IndexPath(e.dirPath, e.name);
      && (Stored(e, server) ==> p in after && after[p] == IndexContent(e, server, serialize))
      && (!Stored(e, server) ==> (p in after <==> p in files) && (p in files ==> after[p] == files[p]))
  {
    var log := WalkEffects(walk, server, serialize);
    var p := IndexPath(e.dirPath, e.name);
    WalkIsEntryByEntry(walk, server, serialize);
    ApplyIsOverwrite(files, log);
    if Stored(e, server) {
      StoredIsWritten(Entries(walk), e, server, serialize);
      WrittenOnlyIfStored(Entries(walk), e, server, serialize);
    } else if p in Written(log) {
      WrittenOnlyIfStored(Entries(walk), e, server, serialize);
    }
  }

  /**
   A run changes no file other than the `index.json` of a stored entry of
   the walk.
   */
  lemma OnlyIndexFilesChange(walk: seq<Level>, files: Files, p: string, server: Server, serialize: Serializer)
    requires !(exists k :: 0 <= k < |Entries(walk)| && Stored(Entries(walk)[k], server)
                 && p == IndexPath(Entries(walk)[k].dirPath, Entries(walk)[k].name))
    ensures var after := Apply(files, WalkEffects(walk, server, serialize));
      (p in after <==> p in files) && (p in files ==> after[p] == files[p])
  {
    var log := WalkEffects(walk, server, serialize);
    WalkIsEntryByEntry(walk, server, serialize);
    ApplyIsOverwrite(files, log);
    if p in Written(log) {
      OnlyIndexFilesWritten(Entries(walk), p, server, serialize);
    }
  }

  // ---------------------------------------------------------------------
  // Root-path validation.

  /**
   A `.tar` path is refused with the extraction error even though it would
   also fail the `database` check; other strings pass exactly when they end
   in `database`.
   */
  lemma TarCheckedFirst(s: string)
    requires EndsWith(s, ".tar")
    ensures ValidateRoot(Str(s)) == Fail(RuntimeError(ExtractMessage))
    ensures !EndsWith(s, "database")
  {
    EndsWithLast(s, ".tar");
    if EndsWith(s, "database") {
      EndsWithLast(s, "database");
    }
  }

  /** A rejected root path aborts the run before any effect. */
  lemma RejectedRootHasNoEffects(path: Value, walk: seq<Level>, server: Server, serialize: Serializer)
    requires !(path.Str? && EndsWith(path.s, "database"))
    ensures Setup(path, walk, server, serialize).Failure?
    ensures !path.Str? ==> Setup(path, walk, server, serialize) == Failure(TypeError(PathTypeMessage))
    ensures path.Str? && !EndsWith(path.s, ".tar")
      ==> Setup(path, walk, server, serialize) == Failure(RuntimeError(RootNameMessage))
  {
  }

  /** The `database` check is a raw suffix test, not a path-component comparison. */
  lemma RawSuffixTest()
    ensures ValidateRoot(Str("/data/mydatabase")) == Pass
    ensures ValidateRoot(Str("/data/database/")) == Fail(RuntimeError(RootNameMessage))
  {
    assert "/data/mydatabase"[8..] == "database";
    assert "/data/database/"[11..] != ".tar";
    assert "/data/database/"[7..] != "database";
  }

  /** The dataset root the repository's own test builds under /tmp. */
  const TestRoot := "/tmp/insectopedia/test/database"

  /** The three refused paths and the accepted one of the repository's own test. */
  lemma SourceTestPaths()
    ensures ValidateRoot(Int(560)) == Fail(TypeError(PathTypeMessage))
    ensures ValidateRoot(Str(TestRoot + ".tar")) == Fail(RuntimeError(ExtractMessage))
    ensures ValidateRoot(Str(TestRoot + "/some_non_database_ending_string")) == Fail(RuntimeError(RootNameMessage))
    ensures ValidateRoot(Str(TestRoot)) == Pass
  {
    var tar := TestRoot + ".tar";
    assert tar[|tar| - 4..] == ".tar";
    TarCheckedFirst(tar);
    var other := TestRoot + "/some_non_database_ending_string";
    assert other[|other| - 1] == 'g';
    assert other[|other| - 4..] != ".tar";
    assert !EndsWith(other, "database") by {
      if EndsWith(other, "database") {
        EndsWithLast(other, "database");
      }
    }
    assert TestRoot[|TestRoot| - 8..] == "database";
  }

  // ---------------------------------------------------------------------
  // Request URLs and warnings.

  /** Different ids are requested at different URLs. */
  lemma SpeciesUrlInjective(a: int, b: int)
    requires SpeciesUrl(a) == SpeciesUrl(b)
    ensures a == b
  {
    assert SpeciesUrl(a)[|SpeciesBase|..] == Decimal(a);
    assert SpeciesUrl(b)[|SpeciesBase|..] == Decimal(b);
    DecimalInjective(a, b);
  }

  /**
   A digit name is requested as its own text exactly when it has no
   leading zero: `007` is requested as species 7, yet still written under `007`.
   */
  lemma RequestedAsWritten(name: string)
    requires IsDigits(name)
    ensures SpeciesUrl(DigitsValue(name)) == SpeciesBase + name <==> Canonical(name)
  {
    var url := SpeciesUrl(DigitsValue(name));
    assert url[|SpeciesBase|..] == Decimal(DigitsValue(name));
    if Canonical(name) {
      NatDecimalOfDigitsValue(name);
    }
  }

  lemma LeadingZerosKeepDirectoryName(dirPath: string, server: Server, serialize: Serializer)
    ensures var log := NameEffects(dirPath, "007", server, serialize);
      && log[0] == Fetch(SpeciesBase + "7")
      && (server(SpeciesBase + "7").status == 200
          ==> log[1] == Write(dirPath + "/007/index.json", serialize(server(SpeciesBase + "7").body)))
  {
    assert IsDigits("007");
    assert DigitsValue("007") == 7 by {
      assert "007"[..2] == "00";
      assert "00"[..1] == "0";
    }
    assert SpeciesUrl(7) == SpeciesBase + "7";
  }

  predicate NoSpace(s: string) {
    forall k :: 0 <= k < |s| ==> s[k] != ' '
  }

  lemma DecimalHasNoSpace(i: int)
    ensures NoSpace(Decimal(i))
  {
    var s := Decimal(i);
    forall k | 0 <= k < |s| ensures s[k] != ' ' {
      if i >= 0 {
        assert IsDigit(s[k]);
      } else if k > 0 {
        assert s[k] == NatDecimal(-i)[k - 1];
        assert IsDigit(NatDecimal(-i)[k - 1]);
      }
    }
  }

  /** Text that has no space in front of a part that starts with one splits uniquely there. */
  lemma SpaceSplit(a: string, x: string, b: string, y: string, middle: string)
    requires NoSpace(a) && NoSpace(b) && |middle| > 0 && middle[0] == ' '
    requires a + middle + x == b + middle + y
    ensures a == b && x == y
  {
    var rest := a + middle + x;
    SeparatorAt(a, middle, x);
    SeparatorAt(b, middle, y);
    if |a| != |b| {
      assert false;
    }
    assert a == rest[..|a|] == b;
    assert x == rest[|a| + |middle|..] == y;
  }

  /** A status warning names its status code and insect id unambiguously. */
  lemma StatusWarningInjective(s1: int, i1: int, s2: int, i2: int)
    requires StatusWarning(s1, i1) == StatusWarning(s2, i2)
    ensures s1 == s2 && i1 == i2
  {
    var w := StatusWarning(s1, i1);
    assert Decimal(s1) + StatusMiddle + Decimal(i1) == w[|StatusPrefix|..] == Decimal(s2) + StatusMiddle + Decimal(i2);
    DecimalHasNoSpace(s1);
    DecimalHasNoSpace(s2);
    SpaceSplit(Decimal(s1), Decimal(i1), Decimal(s2), Decimal(i2), StatusMiddle);
    DecimalInjective(s1, s2);
    DecimalInjective(i1, i2);
  }

  /** A name warning names its directory, and never reads as a status warning. */
  lemma NameWarningDistinct(d1: string, d2: string, status: int, id: int)
    ensures NameWarning(d1) == NameWarning(d2) ==> d1 == d2
    ensures NameWarning(d1) != StatusWarning(status, id)
  {
    var prefix := "sample dataset directory \"";
    if NameWarning(d1) == NameWarning(d2) {
      var w := NameWarning(d1);
      var n := |w| - |prefix| - |"\" could not be parsed as integer please investigate"|;
      assert d1 == w[|prefix|..|prefix| + n];
      assert d2 == w[|prefix|..|prefix| + n];
    }
    assert NameWarning(d1)[0] == 's';
    assert StatusWarning(status, id)[0] == 'R';
  }
}
