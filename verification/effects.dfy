/**
 What the setup script does to the world, as an ordered log: HTTP GET
 requests, file writes and Python warnings. The file store is a map from
 path to content; a write opens the file in mode 'w', so it replaces
 whatever the path held before.
 */
module Effects {

  datatype Effect =
    | Fetch(url: string)
    | Write(path: string, content: string)
    | Warn(message: string)
  {
    function Kind(): Kind {
      match this
      case Fetch(_) => FetchKind
      case Write(_, _) => WriteKind
      case Warn(_) => WarnKind
    }
  }

  datatype Kind = FetchKind | WriteKind | WarnKind

  type Files = map<string, string>

  /** How many effects of the log are of the given kind. */
  function Count(log: seq<Effect>, kind: Kind): nat {
    if |log| == 0 then 0
    else Count(log[..|log| - 1], kind) + (if log[|log| - 1].Kind() == kind then 1 else 0)
  }

  /** The file store after the writes of `log` were carried out, in order, on `files`. */
  function Apply(files: Files, log: seq<Effect>): Files {
    if |log| == 0 then files
    else
      var before := Apply(files, log[..|log| - 1]);
      match log[|log| - 1]
      case Write(path, content) => before[path := content]
      case _ => before
  }

  /** The paths `log` writes, each with the content of its last write. */
  function Written(log: seq<Effect>): Files {
    Apply(map[], log)
  }

  lemma ConcatAssoc(a: seq<Effect>, b: seq<Effect>, c: seq<Effect>)
    ensures a + b + c == a + (b + c)
  {
  }

  lemma CountPair(a: Effect, b: Effect, kind: Kind)
    ensures Count([a], kind) == (if a.Kind() == kind then 1 else 0)
    ensures Count([a, b], kind) == Count([a], kind) + (if b.Kind() == kind then 1 else 0)
  {
    assert [a][..0] == [];
    assert [a, b][..1] == [a];
  }

  lemma ApplyPair(files: Files, a: Effect, b: Effect)
    requires !a.Write?
    ensures Apply(files, [a]) == files
    ensures Apply(files, [a, b]) == if b.Write? then files[b.path := b.content] else files
  {
    assert [a][..0] == [];
    assert [a, b][..1] == [a];
  }

  lemma {:induction false} CountConcat(a: seq<Effect>, b: seq<Effect>, kind: Kind)
    ensures Count(a + b, kind) == Count(a, kind) + Count(b, kind)
    decreases |b|
  {
    if |b| > 0 {
      assert (a + b)[..|a + b| - 1] == a + b[..|b| - 1];
      CountConcat(a, b[..|b| - 1], kind);
    } else {
      assert a + b == a;
    }
  }

  /** Carrying out `a + b` is carrying out `a`, then `b`. */
  lemma {:induction false} ApplyConcat(files: Files, a: seq<Effect>, b: seq<Effect>)
    ensures Apply(files, a + b) == Apply(Apply(files, a), b)
    decreases |b|
  {
    if |b| > 0 {
      assert (a + b)[..|a + b| - 1] == a + b[..|b| - 1];
      ApplyConcat(files, a, b[..|b| - 1]);
    } else {
      assert a + b == a;
    }
  }

  /** Only the written paths change, and each ends up with its last write. */
  lemma {:induction false} ApplyIsOverwrite(files: Files, log: seq<Effect>)
    ensures Apply(files, log) == files + Written(log)
    decreases |log|
  {
    if |log| > 0 {
      ApplyIsOverwrite(files, log[..|log| - 1]);
    }
  }

  /** Replaying a log on its own result changes nothing (mode 'w' overwrites). */
  lemma ApplyTwice(files: Files, log: seq<Effect>)
    ensures Apply(Apply(files, log), log) == Apply(files, log)
  {
    ApplyIsOverwrite(files, log);
    ApplyIsOverwrite(Apply(files, log), log);
    assert files + Written(log) + Written(log) == files + Written(log);
  }
}
