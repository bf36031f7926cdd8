/**
 * The file-size benchmark runner: a list of file paths, displayed joined by
 * ", ", and turned into one result per file, named by the file's name and
 * measured by its length in bytes.
 */
module FileSizeRunner {
  import opened Wrappers

  // ---------------------------------------------------------------------------
  // Splitting and joining strings

  /** `parts` written out with `sep` between neighbours; no parts give "". */
  function Join(parts: seq<string>, sep: string): string
  {
    if |parts| == 0 then ""
    else if |parts| == 1 then parts[0]
    else parts[0] + sep + Join(parts[1..], sep)
  }

  /** A character in front of the first part is in front of the joined text. */
  lemma JoinConsChar(x: char, p: string, q: seq<string>, sep: string)
    ensures Join([[x] + p] + q, sep) == [x] + Join([p] + q, sep)
  {
    assert ([[x] + p] + q)[1..] == q;
    assert ([p] + q)[1..] == q;
  }

  /** `s` cut at every `c`. */
  function SplitAt(s: string, c: char): (r: seq<string>)
    ensures |r| > 0
  {
    if s == [] then [""]
    else
      var rest := SplitAt(s[1..], c);
      if s[0] == c then [""] + rest else [[s[0]] + rest[0]] + rest[1..]
  }

  /** Text without the cut character is a single piece. */
  lemma {:induction false} SplitAtPlain(s: string, c: char)
    requires c !in s
    ensures SplitAt(s, c) == [s]
  {
    if s != [] {
      assert c !in s[1..];
      SplitAtPlain(s[1..], c);
      assert [s[0]] + s[1..] == s;
    }
  }

  /** No piece holds the cut character. */
  lemma {:induction false} SplitAtPieces(s: string, c: char)
    ensures forall k :: 0 <= k < |SplitAt(s, c)| ==> c !in SplitAt(s, c)[k]
  {
    if s != [] {
      SplitAtPieces(s[1..], c);
    }
  }

  /** Joining the pieces with the cut character gives the string back. */
  lemma {:induction false} JoinSplitAt(s: string, c: char)
    ensures Join(SplitAt(s, c), [c]) == s
  {
    if s != [] {
      var rest := SplitAt(s[1..], c);
      JoinSplitAt(s[1..], c);
      if s[0] == c {
        assert ([""] + rest)[1..] == rest;
      } else {
        JoinConsChar(s[0], rest[0], rest[1..], [c]);
        assert [rest[0]] + rest[1..] == rest;
      }
    }
  }

  /** Extending the first piece of `r1` commutes with appending `r2`. */
  lemma ExtendFirstPiece(x: char, r1: seq<string>, r2: seq<string>)
    requires |r1| > 0
    ensures [[x] + (r1 + r2)[0]] + (r1 + r2)[1..] == ([[x] + r1[0]] + r1[1..]) + r2
  {
    assert (r1 + r2)[0] == r1[0] && (r1 + r2)[1..] == r1[1..] + r2;
  }

  /** Cutting `a` followed by a cut character and `b` is cutting `a` and then `b`. */
  lemma {:induction false} SplitAtAppend(a: string, t: string, c: char)
    requires |t| > 0 && t[0] == c
    ensures SplitAt(a + t, c) == SplitAt(a, c) + SplitAt(t[1..], c)
  {
    if a == [] {
      assert a + t == t;
    } else {
      assert (a + t)[0] == a[0] && (a + t)[1..] == a[1..] + t;
      SplitAtAppend(a[1..], t, c);
      if a[0] != c {
        ExtendFirstPiece(a[0], SplitAt(a[1..], c), SplitAt(t[1..], c));
      }
    }
  }

  /** The display's inverse: cut at each comma and skip the space after it. */
  function SplitList(s: string): (r: seq<string>)
    ensures |r| > 0
    decreases |s|
  {
    if s == [] then [""]
    else if s[0] == ',' then [""] + SplitList(if |s| >= 2 then s[2..] else "")
    else
      var rest := SplitList(s[1..]);
      [[s[0]] + rest[0]] + rest[1..]
  }

  /** Comma-free text in front joins the first piece of what follows. */
  lemma {:induction false} SplitListPrefix(p: string, t: string)
    requires ',' !in p
    ensures SplitList(p + t) == [p + SplitList(t)[0]] + SplitList(t)[1..]
  {
    if p != [] {
      assert (p + t)[0] == p[0] && (p + t)[1..] == p[1..] + t;
      SplitListPrefix(p[1..], t);
      assert [p[0]] + (p[1..] + SplitList(t)[0]) == p + SplitList(t)[0];
    } else {
      assert p + t == t;
      var r := SplitList(t);
      assert p + r[0] == r[0];
      assert [r[0]] + r[1..] == r;
    }
  }

  /** Joining with ", " and splitting again gives back any non-empty list of comma-free parts. */
  lemma {:induction false} SplitListJoin(parts: seq<string>)
    requires |parts| > 0
    requires forall k :: 0 <= k < |parts| ==> ',' !in parts[k]
    ensures SplitList(Join(parts, ", ")) == parts
  {
    if |parts| == 1 {
      SplitListPrefix(parts[0], "");
      assert parts[0] + "" == parts[0];
    } else {
      var rest := Join(parts[1..], ", ");
      SplitListJoin(parts[1..]);
      var t := ", " + rest;
      assert t[0] == ',' && t[2..] == rest;
      assert SplitList(t) == [""] + parts[1..];
      assert Join(parts, ", ") == parts[0] + t;
      SplitListPrefix(parts[0], t);
      assert parts[0] + "" == parts[0];
    }
  }

  // ---------------------------------------------------------------------------
  // File names

  /**
   * The file name of a Unix path, as a path library reads it: the last component
   * once empty and "." components are dropped; none when nothing is left or the
   * last component is "..".
   */
  function FileName(path: string): (r: Option<string>)
    ensures r.Some? ==> r.value != "" && r.value != "." && r.value != ".." && '/' !in r.value
  {
    SplitAtPieces(path, '/');
    var kept := Named(SplitAt(path, '/'));
    if |kept| == 0 || kept[|kept| - 1] == ".." then None else Some(kept[|kept| - 1])
  }

  /** The components that name something: neither empty nor ".". */
  function Named(segments: seq<string>): (r: seq<string>)
    ensures forall k :: 0 <= k < |r| ==> r[k] in segments && r[k] != "" && r[k] != "."
  {
    if |segments| == 0 then []
    else
      var prev := Named(segments[..|segments| - 1]);
      var last := segments[|segments| - 1];
      if last == "" || last == "." then prev else prev + [last]
  }

  /** A name is a single component that names something. */
  predicate IsName(name: string)
  {
    name != "" && name != "." && name != ".." && '/' !in name
  }

  /** A name appended to any directory is that path's file name; so is a bare name. */
  lemma FileNameOfChild(dir: string, name: string)
    requires IsName(name)
    ensures FileName(dir + "/" + name) == Some(name)
    ensures FileName(name) == Some(name)
  {
    assert dir + "/" + name == dir + ("/" + name) && ("/" + name)[1..] == name;
    SplitAtAppend(dir, "/" + name, '/');
    SplitAtPlain(name, '/');
    var segments := SplitAt(dir, '/') + [name];
    assert segments[..|segments| - 1] == SplitAt(dir, '/');
  }

  /** The root, the current directory and the empty path have no file name. */
  lemma NoFileNameAtRoot()
    ensures FileName("/") == None && FileName(".") == None && FileName("") == None
  {
    assert SplitAt("/", '/') == ["", ""] by {
      assert "/"[1..] == "";
    }
    assert Named(["", ""]) == [] by {
      assert ["", ""][..1] == [""];
      assert [""][..0] == [];
    }
    assert SplitAt(".", '/') == ["."] by {
      SplitAtPlain(".", '/');
    }
    assert Named(["."]) == [] by {
      assert ["."][..0] == [];
    }
  }

  /** A path ending in ".." has no file name. */
  lemma NoFileNameOfParent()
    ensures FileName("a/..") == None
  {
    assert SplitAt("a/..", '/') == ["a", ".."] by {
      assert "a/.."[1..] == "/..";
      assert "/.."[1..] == "..";
      SplitAtPlain("..", '/');
      assert SplitAt("/..", '/') == ["", ".."];
      assert ['a'] + "" == "a";
    }
    assert Named(["a", ".."]) == ["a", ".."] by {
      assert ["a", ".."][..1] == ["a"];
      assert ["a"][..0] == [];
    }
  }

  /** The name a result is filed under: the file name, or the whole path when there is none. */
  function NameText(path: string): (r: string)
    ensures FileName(path).Some? ==> r == FileName(path).value
    ensures FileName(path).None? ==> r == path
  {
    match FileName(path)
    case Some(name) => name
    case None => path
  }

  // ---------------------------------------------------------------------------
  // The runner

  /** The file paths to measure. */
  datatype FileSize = FileSize(paths: seq<string>)

  /** `FileSize::new`. */
  function New(paths: seq<string>): (r: FileSize)
    ensures r.paths == paths
  {
    FileSize(paths)
  }

  /** `Display for FileSize`: the paths, in order, joined by ", ". */
  function Display(fileSize: FileSize): (r: string)
    ensures fileSize.paths == [] ==> r == ""
    ensures |fileSize.paths| == 1 ==> r == fileSize.paths[0]
    ensures |fileSize.paths| > 1 ==> |r| >= |fileSize.paths[0]| + 2 && r[..|fileSize.paths[0]| + 2] == fileSize.paths[0] + ", "
  {
    Join(fileSize.paths, ", ")
  }

  /** No paths display as nothing, and so does a single empty path. */
  lemma DisplayEmpty()
    ensures Display(New([])) == "" && Display(New([""])) == ""
  {
  }

  /** The display lists the paths in order: comma-free paths are read back from it exactly. */
  lemma DisplayListsPaths(paths: seq<string>)
    requires |paths| > 0
    requires forall k :: 0 <= k < |paths| ==> ',' !in paths[k]
    ensures SplitList(Display(New(paths))) == paths
  {
    SplitListJoin(paths);
  }

  datatype RunError = OutputFileName(nameError: string) | OutputFileSize(sizeError: string) | SerializeFileSize(serializeError: string)

  datatype BenchmarkName = BenchmarkName(name: string)

  /** A measured value with its optional bounds; the file length stands in for the `f64` value. */
  datatype JsonMetric = JsonMetric(value: nat, lower_value: Option<nat>, upper_value: Option<nat>)

  datatype MeasureMetric = MeasureMetric(measure: string, metric: JsonMetric)

  /** One benchmark's results. */
  datatype Entry = Entry(name: BenchmarkName, metrics: seq<MeasureMetric>)

  const FILE_SIZE_SLUG: string := "file-size"

  /** The default metric: a zero value and no bounds. */
  const DEFAULT_METRIC: JsonMetric := JsonMetric(0, None, None)

  /** What the runner asks of the outside: name parsing, file lengths and JSON serialisation. */
  datatype Environment = Environment(
    parseName: string -> Result<BenchmarkName, string>,
    fileLength: string -> Result<nat, string>,
    serialize: seq<Entry> -> Result<string, string>)

  /** The result for one path: the name is checked first, then the file's length is read. */
  function EntryFor(path: string, env: Environment): (r: Result<Entry, RunError>)
    ensures env.parseName(NameText(path)).Err? ==> r == Err(OutputFileName(env.parseName(NameText(path)).error))
    ensures env.parseName(NameText(path)).Ok? && env.fileLength(path).Err? ==> r == Err(OutputFileSize(env.fileLength(path).error))
    ensures r.Ok? ==> && env.parseName(NameText(path)).Ok? && env.fileLength(path).Ok?
                      && r.value.name == env.parseName(NameText(path)).value
                      && r.value.metrics == [MeasureMetric(FILE_SIZE_SLUG, DEFAULT_METRIC.(value := env.fileLength(path).value))]
  {
    match env.parseName(NameText(path))
    case Err(e) => Err(OutputFileName(e))
    case Ok(name) =>
      match env.fileLength(path)
      case Err(e) => Err(OutputFileSize(e))
      case Ok(length) => Ok(Entry(name, [MeasureMetric(FILE_SIZE_SLUG, DEFAULT_METRIC.(value := length))]))
  }

  /** What measuring one path gives. */
  type Step = string -> Result<Entry, RunError>

  /** The results for all paths, in order; the first path that fails decides the error. */
  function Entries(paths: seq<string>, step: Step): (r: Result<seq<Entry>, RunError>)
    ensures paths == [] ==> r == Ok([])
    ensures r.Ok? ==> |r.value| == |paths|
    ensures r.Ok? && |paths| > 0 ==> step(paths[|paths| - 1]) == Ok(r.value[|paths| - 1])
  {
    if |paths| == 0 then Ok([])
    else
      var prev :- Entries(paths[..|paths| - 1], step);
      var entry :- step(paths[|paths| - 1]);
      Ok(prev + [entry])
  }

  /** The serialised results, or the first error. */
  function Results(fileSize: FileSize, env: Environment): (r: Result<string, RunError>)
    ensures r.Ok? ==> forall k :: 0 <= k < |fileSize.paths| ==> EntryFor(fileSize.paths[k], env).Ok?
    ensures (exists k :: 0 <= k < |fileSize.paths| && EntryFor(fileSize.paths[k], env).Err?) ==>
      r.Err? && !r.error.SerializeFileSize?
  {
    var step: Step := path => EntryFor(path, env);
    EntriesFirstFailure(fileSize.paths, step);
    var entries :- Entries(fileSize.paths, step);
    match env.serialize(entries)
    case Ok(text) => Ok(text)
    case Err(e) => Err(SerializeFileSize(e))
  }

  /** On success there is one result per path, in path order. */
  lemma {:induction false} EntriesOnePerPath(paths: seq<string>, step: Step)
    requires Entries(paths, step).Ok?
    ensures |Entries(paths, step).value| == |paths|
    ensures forall k :: 0 <= k < |paths| ==>
      step(paths[k]).Ok? && Entries(paths, step).value[k] == step(paths[k]).value
  {
    if |paths| > 0 {
      var init := paths[..|paths| - 1];
      EntriesOnePerPath(init, step);
      forall k | 0 <= k < |init|
        ensures init[k] == paths[k]
      {
      }
    }
  }

  /** The results fail exactly when some path fails, and then with the error of the first such path. */
  lemma {:induction false} EntriesFirstFailure(paths: seq<string>, step: Step)
    ensures Entries(paths, step).Ok? <==> forall k :: 0 <= k < |paths| ==> step(paths[k]).Ok?
    ensures Entries(paths, step).Err? ==>
      exists k :: 0 <= k < |paths| && step(paths[k]) == Err(Entries(paths, step).error)
        && forall j :: 0 <= j < k ==> step(paths[j]).Ok?
  {
    if |paths| > 0 {
      var init := paths[..|paths| - 1];
      EntriesFirstFailure(init, step);
      assert forall k :: 0 <= k < |init| ==> init[k] == paths[k];
      if Entries(init, step).Err? {
        var k :| 0 <= k < |init| && step(init[k]) == Err(Entries(init, step).error)
          && forall j :: 0 <= j < k ==> step(init[j]).Ok?;
        assert step(paths[k]) == Err(Entries(paths, step).error);
      }
    }
  }

  /** A failure within the first `n` paths is the failure of the whole call. */
  lemma {:induction false} PrefixFailureIsFinal(paths: seq<string>, n: nat, step: Step)
    requires n <= |paths|
    requires Entries(paths[..n], step).Err?
    ensures Entries(paths, step) == Entries(paths[..n], step)
    decreases |paths|
  {
    if n < |paths| {
      var init := paths[..|paths| - 1];
      assert init[..n] == paths[..n];
      PrefixFailureIsFinal(init, n, step);
    } else {
      assert paths[..n] == paths;
    }
  }

  /** `FileSize::get_results`: measures each path in turn, stopping at the first failure. */
  method GetResults(fileSize: FileSize, env: Environment) returns (r: Result<string, RunError>)
    ensures r == Results(fileSize, env)
  {
    var paths := fileSize.paths;
    ghost var step: Step := path => EntryFor(path, env);
    var results: seq<Entry> := [];
    var i := 0;
    while i < |paths|
      invariant 0 <= i <= |paths|
      invariant Entries(paths[..i], step) == Ok(results)
    {
      var path := paths[i];
      assert paths[..i + 1][..i] == paths[..i];
      var name := env.parseName(NameText(path));
      if name.Err? {
        PrefixFailureIsFinal(paths, i + 1, step);
        return Err(OutputFileName(name.error));
      }
      var length := env.fileLength(path);
      if length.Err? {
        PrefixFailureIsFinal(paths, i + 1, step);
        return Err(OutputFileSize(length.error));
      }
      results := results + [Entry(name.value, [MeasureMetric(FILE_SIZE_SLUG, DEFAULT_METRIC.(value := length.value))])];
      i := i + 1;
    }
    assert paths[..i] == paths;
    var text := env.serialize(results);
    if text.Err? {
      return Err(SerializeFileSize(text.error));
    }
    return Ok(text.value);
  }
}
