/**
 The setup script that enriches a Kaggle insect dataset with GBIF species
 records: `setupSimpleDatabase` checks the root path and walks the tree,
 `dumpInsectIndex` fetches one species and writes its `index.json`, and
 `requestSpeciesData` guards the id's type and builds the request URL.

 The outside world is given as inputs: the directory walk is a sequence of
 levels (what `os.walk` yields), the GBIF service is a function from URL to
 response, and `json.dumps(info.json())` is a function from body to text.
 */
module SetupApi {
  import opened Text
  import opened Effects

  /** A Python argument whose type the script checks at run time. */
  datatype Value = Str(s: string) | Int(n: int) | Other

  /** The exceptions that abort a run. */
  datatype Fatal = TypeError(message: string) | RuntimeError(message: string)

  datatype Outcome = Pass | Fail(error: Fatal)

  datatype Result<T> = Success(value: T) | Failure(error: Fatal)

  datatype Response = Response(status: int, body: string)

  /** One item of the walk: a directory and the names of its child directories. */
  datatype Level = Level(dirPath: string, names: seq<string>)

  type Server = string -> Response

  type Serializer = string -> string

  const SpeciesBase := "https://api.gbif.org/v1/species/"
  const IndexFileSuffix := "/index.json"

  const PathTypeMessage := "Expected path to database directory to be a string"
  const ExtractMessage := "Database needs to be extracted before being processed"
  // The source breaks this literal with a backslash-newline, so the 44 spaces
  // that indent its second line are part of the message.
  const RootNameMessage := "Expected database directory to have default name \"database\". "
    + "                                            "
    + "please do not change anything about the dataset provided"
  const IdTypeMessage := "Expected Integer argument for species"

  function NameWarning(dir: string): string {
    "sample dataset directory \"" + dir + "\" could not be parsed as integer please investigate"
  }

  const StatusPrefix := "Received status code "
  const StatusMiddle := " from source " + SpeciesBase + " for insect_id "

  /** The text of the warning for a response whose status is not 200. */
  function StatusWarning(status: int, insectId: int): string {
    StatusPrefix + (Decimal(status) + StatusMiddle + Decimal(insectId))
  }

  /**
   The three fail-fast checks on the root path, in the source's order: its
   type, then the archive suffix, then the `database` suffix.
   */
  function ValidateRoot(path: Value): (r: Outcome)
    ensures r.Pass? <==> path.Str? && EndsWith(path.s, "database")
    ensures r == Fail(TypeError(PathTypeMessage)) <==> !path.Str?
  {
    if !path.Str? then Fail(TypeError(PathTypeMessage))
    else if EndsWith(path.s, ".tar") then
      EndsWithLast(path.s, ".tar");
      assert !EndsWith(path.s, "database") by {
        if EndsWith(path.s, "database") { EndsWithLast(path.s, "database"); }
      }
      Fail(RuntimeError(ExtractMessage))
    else if !EndsWith(path.s, "database") then Fail(RuntimeError(RootNameMessage))
    else Pass
  }

  /** The request URL: the GBIF species endpoint followed by `str(id)`. */
  function SpeciesUrl(id: int): (url: string)
    ensures StartsWith(url, SpeciesBase) && |url| > |SpeciesBase|
    ensures id >= 0 ==> Canonical(url[|SpeciesBase|..]) && DigitsValue(url[|SpeciesBase|..]) == id
    ensures id < 0 ==> (url[|SpeciesBase|] == '-'
      && Canonical(url[|SpeciesBase| + 1..]) && DigitsValue(url[|SpeciesBase| + 1..]) == -id)
  {
    var d := Decimal(id);
    var url := SpeciesBase + d;
    assert url[|SpeciesBase|..] == d;
    if id >= 0 then
      DigitsValueOfNatDecimal(id); url
    else
      var n := NatDecimal(-id);
      assert d == "-" + n;
      assert url[|SpeciesBase| + 1..] == n;
      DigitsValueOfNatDecimal(-id); url
  }

  /** Where an index is written: `dirPath + '/' + dir + '/index.json'`. */
  function IndexPath(dirPath: string, dir: string): (p: string)
    ensures EndsWith(p, IndexFileSuffix) && StartsWith(p, dirPath + "/")
    ensures |p| == |dirPath| + 1 + |dir| + |IndexFileSuffix|
    ensures p[|dirPath| + 1..|p| - |IndexFileSuffix|] == dir
  {
    var p := dirPath + "/" + dir + IndexFileSuffix;
    assert p[|p| - |IndexFileSuffix|..] == IndexFileSuffix;
    assert p[..|dirPath| + 1] == dirPath + "/";
    assert p[|dirPath| + 1..|p| - |IndexFileSuffix|] == dir;
    p
  }

  /** The response `requestSpeciesData` obtains for an id, or its TypeError. */
  function RequestSpecies(id: Value, server: Server): Result<Response> {
    if !id.Int? then Failure(TypeError(IdTypeMessage))
    else Success(server(SpeciesUrl(id.n)))
  }

  /** The effects of `dumpInsectIndex(dirPath, dir)`: one request, then one write or one warning. */
  function DumpEffects(dirPath: string, dir: string, server: Server, serialize: Serializer): seq<Effect>
    requires IsDigits(dir)
  {
    var insectId := DigitsValue(dir);
    var info := server(SpeciesUrl(insectId));
    if info.status == 200 then
      [Fetch(SpeciesUrl(insectId)), Write(IndexPath(dirPath, dir), serialize(info.body))]
    else
      [Fetch(SpeciesUrl(insectId)), Warn(StatusWarning(info.status, insectId))]
  }

  /** The effects of one child name met by the walk. */
  function NameEffects(dirPath: string, dir: string, server: Server, serialize: Serializer): seq<Effect> {
    if !IsDigits(dir) then [Warn(NameWarning(dir))]
    else DumpEffects(dirPath, dir, server, serialize)
  }

  /** The effects of the inner loop over the child names of one level. */
  function LevelEffects(dirPath: string, names: seq<string>, server: Server, serialize: Serializer): seq<Effect> {
    if |names| == 0 then []
    else
      LevelEffects(dirPath, names[..|names| - 1], server, serialize)
      + NameEffects(dirPath, names[|names| - 1], server, serialize)
  }

  /** The effects of the outer loop over the levels of the walk. */
  function WalkEffects(walk: seq<Level>, server: Server, serialize: Serializer): seq<Effect> {
    if |walk| == 0 then []
    else
      var last := walk[|walk| - 1];
      WalkEffects(walk[..|walk| - 1], server, serialize) + LevelEffects(last.dirPath, last.names, server, serialize)
  }

  lemma LevelEffectsStep(dirPath: string, names: seq<string>, j: nat, server: Server, serialize: Serializer)
    requires j < |names|
    ensures LevelEffects(dirPath, names[..j + 1], server, serialize)
      == LevelEffects(dirPath, names[..j], server, serialize) + NameEffects(dirPath, names[j], server, serialize)
  {
    assert names[..j + 1][..j] == names[..j];
  }

  lemma WalkEffectsStep(walk: seq<Level>, i: nat, server: Server, serialize: Serializer)
    requires i < |walk|
    ensures WalkEffects(walk[..i + 1], server, serialize)
      == WalkEffects(walk[..i], server, serialize) + LevelEffects(walk[i].dirPath, walk[i].names, server, serialize)
  {
    assert walk[..i + 1][..i] == walk[..i];
  }

  /** A whole run of `setupSimpleDatabase`: the fatal error, or the log of its effects. */
  function Setup(path: Value, walk: seq<Level>, server: Server, serialize: Serializer): Result<seq<Effect>> {
    match ValidateRoot(path)
    case Fail(e) => Failure(e)
    case Pass => Success(WalkEffects(walk, server, serialize))
  }

  /**
   The world as the script sees it: the warnings it issued, the requests it
   made and the files it wrote, in order, and the files on disk.
   */
  class Host {
    var log: seq<Effect>
    var files: Files
    /** The files on disk before the first effect of `log`. */
    ghost var initial: Files

    /** The files on disk are the initial ones with the writes of the log carried out. */
    ghost predicate Valid()
      reads this
    {
      files == Apply(initial, log)
    }

    constructor (files: Files)
      ensures Valid()
      ensures log == [] && this.files == files
    {
      log := [];
      this.files := files;
      initial := files;
    }

    /** `warnings.warn(message, RuntimeWarning)`. */
    method IssueWarning(message: string)
      requires Valid()
      modifies this
      ensures Valid() && initial == old(initial)
      ensures log == old(log) + [Warn(message)]
      ensures files == old(files)
    {
      ApplyConcat(initial, log, [Warn(message)]);
      log := log + [Warn(message)];
    }

    /** `open(path, 'w').write(data)`: the file holds exactly `data` afterwards. */
    method WriteFile(path: string, data: string)
      requires Valid()
      modifies this
      ensures Valid() && initial == old(initial)
      ensures log == old(log) + [Write(path, data)]
      ensures files == old(files)[path := data]
    {
      ApplyConcat(initial, log, [Write(path, data)]);
      log := log + [Write(path, data)];
      files := files[path := data];
    }

    /** `requestSpeciesData(id)`: a TypeError before any request, or exactly one GET. */
    method RequestSpeciesData(id: Value, server: Server) returns (r: Result<Response>)
      requires Valid()
      modifies this
      ensures Valid() && initial == old(initial)
      ensures r == RequestSpecies(id, server)
      ensures !id.Int? ==> r == Failure(TypeError(IdTypeMessage)) && log == old(log)
      ensures id.Int? ==> log == old(log) + [Fetch(SpeciesUrl(id.n))]
      ensures files == old(files)
    {
      if !id.Int? {
        return Failure(TypeError(IdTypeMessage));
      }
      var url := SpeciesBase + Decimal(id.n);
      ApplyConcat(initial, log, [Fetch(url)]);
      log := log + [Fetch(url)];
      r := Success(server(url));
    }

    /** `dumpInsectIndex(dirPath, dir)` for a directory name made of digits. */
    method DumpInsectIndex(dirPath: string, dir: string, server: Server, serialize: Serializer)
      requires Valid() && IsDigits(dir)
      modifies this
      ensures Valid() && initial == old(initial)
      ensures log == old(log) + DumpEffects(dirPath, dir, server, serialize)
      ensures files == Apply(old(files), DumpEffects(dirPath, dir, server, serialize))
    {
      var insectId := DigitsValue(dir);
      var info := RequestSpeciesData(Int(insectId), server);
      var response := info.value;
      if response.status == 200 {
        var data := serialize(response.body);
        var outdir := dirPath + "/" + dir + IndexFileSuffix;
        WriteFile(outdir, data);
      } else {
        IssueWarning(StatusWarning(response.status, insectId));
      }
      ApplyConcat(initial, old(log), DumpEffects(dirPath, dir, server, serialize));
    }

    /** The inner `for dir in dirName` loop of `setupSimpleDatabase`, for one level of the walk. */
    method VisitLevel(dirPath: string, names: seq<string>, server: Server, serialize: Serializer)
      requires Valid()
      modifies this
      ensures Valid() && initial == old(initial)
      ensures log == old(log) + LevelEffects(dirPath, names, server, serialize)
      ensures files == Apply(old(files), LevelEffects(dirPath, names, server, serialize))
    {
      var j := 0;
      assert names[..0] == [];
      while j < |names|
        invariant 0 <= j <= |names|
        invariant Valid() && initial == old(initial)
        invariant log == old(log) + LevelEffects(dirPath, names[..j], server, serialize)
      {
        var dir := names[j];
        ghost var before := LevelEffects(dirPath, names[..j], server, serialize);
        ghost var step := NameEffects(dirPath, dir, server, serialize);
        if !IsDigits(dir) {
          IssueWarning(NameWarning(dir));
        } else {
          DumpInsectIndex(dirPath, dir, server, serialize);
        }
        assert log == old(log) + before + step;
        LevelEffectsStep(dirPath, names, j, server, serialize);
        ConcatAssoc(old(log), before, step);
        j := j + 1;
      }
      assert names[..|names|] == names;
      ApplyConcat(initial, old(log), LevelEffects(dirPath, names, server, serialize));
    }

    /** `setupSimpleDatabase(path)` over the given walk. */
    method SetupSimpleDatabase(path: Value, walk: seq<Level>, server: Server, serialize: Serializer)
      returns (r: Outcome)
      requires Valid()
      modifies this
      ensures Valid() && initial == old(initial)
      ensures r == ValidateRoot(path)
      ensures match Setup(path, walk, server, serialize)
        case Failure(e) => r == Fail(e) && log == old(log) && files == old(files)
        case Success(effects) => r == Pass && log == old(log) + effects && files == Apply(old(files), effects)
      ensures r.Fail? ==> log == old(log) && files == old(files)
      ensures r.Pass? ==> log == old(log) + WalkEffects(walk, server, serialize)
      ensures r.Pass? ==> files == Apply(old(files), WalkEffects(walk, server, serialize))
    {
      if !path.Str? {
        return Fail(TypeError(PathTypeMessage));
      }
      if EndsWith(path.s, ".tar") {
        return Fail(RuntimeError(ExtractMessage));
      }
      if !EndsWith(path.s, "database") {
        return Fail(RuntimeError(RootNameMessage));
      }
      var i := 0;
      assert walk[..0] == [];
      while i < |walk|
        invariant 0 <= i <= |walk|
        invariant Valid() && initial == old(initial)
        invariant log == old(log) + WalkEffects(walk[..i], server, serialize)
      {
        ghost var before := WalkEffects(walk[..i], server, serialize);
        VisitLevel(walk[i].dirPath, walk[i].names, server, serialize);
        WalkEffectsStep(walk, i, server, serialize);
        ConcatAssoc(old(log), before, LevelEffects(walk[i].dirPath, walk[i].names, server, serialize));
        i := i + 1;
      }
      assert walk[..|walk|] == walk;
      ApplyConcat(initial, old(log), WalkEffects(walk, server, serialize));
      return Pass;
    }
  }
}
