/** The index generator `makeSourcesIndex.js`: it lists one sub-folder of
    the public assets and turns every visible file name into a source
    record. The directory listing is a parameter; the JSON text written to
    standard output is represented by the records it serialises. */
module SourcesIndex {
  import opened Common
  import opened Text
  import opened Sources

  /** `path.parse(f).name` for a bare file name: the part before the last
      dot, unless that dot is the first character. */
  function ParsedName(f: string): (r: string)
    ensures |r| <= |f| && r == f[..|r|]
    ensures r == f || (|r| > 0 && f[|r|] == '.' && '.' !in f[|r| + 1..])
    ensures r == f <==> (forall j :: 0 < j < |f| ==> f[j] != '.')
  {
    match LastIndexOf(f, '.')
    case Some(i) => if i > 0 then f[..i] else f
    case None => f
  }

  /** `name.toLocaleLowerCase().replace(" ", "-")`. */
  function SourceId(name: string): (r: string)
    ensures |r| == |name|
  {
    ReplaceFirst(ToLower(name), " ", "-")
  }

  /** Lower-casing neither makes nor removes a space. */
  lemma SpaceSurvivesLower(s: string, j: nat)
    ensures OccursAt(ToLower(s), " ", j) <==> OccursAt(s, " ", j)
  {
    if j + 1 <= |s| {
      assert ToLower(s)[j..j + 1] == [LowerChar(s[j])];
      assert s[j..j + 1] == [s[j]];
    }
  }

  /** The id is the lower-cased name with only its first space turned into
      a dash. */
  lemma SourceIdChars(name: string)
    ensures forall i :: 0 <= i < |name| ==>
      SourceId(name)[i] == if IndexOf(name, " ") == Some(i) then '-' else LowerChar(name[i])
  {
    var low := ToLower(name);
    IndexOfFirst(low, " ");
    IndexOfFirst(name, " ");
    forall j: nat ensures OccursAt(low, " ", j) <==> OccursAt(name, " ", j) {
      SpaceSurvivesLower(name, j);
    }
    assert IndexOf(low, " ") == IndexOf(name, " ");
  }

  /** The record written for one file: the folder is `sub`. */
  function Record(sub: string, f: string): (r: Source)
    ensures r.name == ParsedName(f) && r.id == SourceId(ParsedName(f))
    ensures r.url == "assets/" + sub + "/" + f
    ensures EndsWith(r.url, f)
  {
    var name := ParsedName(f);
    Source(SourceId(name), name, "assets/" + sub + "/" + f)
  }

  /** `files.filter(f => !f.startsWith("."))`. */
  function Visible(files: seq<string>): (r: seq<string>)
    ensures |r| <= |files|
    ensures forall f <- r :: f in files && !StartsWith(f, ".")
    ensures forall f <- files :: !StartsWith(f, ".") ==> f in r
  {
    if |files| == 0 then []
    else (if StartsWith(files[0], ".") then [] else [files[0]]) + Visible(files[1..])
  }

  /** The transform: one record per visible file, in listing order (the
      listing is never sorted: `files.sort` is read, not called). */
  function Index(sub: string, files: seq<string>): (r: seq<Source>)
    ensures |r| == |Visible(files)|
    ensures forall i :: 0 <= i < |r| ==> r[i] == Record(sub, Visible(files)[i])
  {
    var visible := Visible(files);
    seq(|visible|, i requires 0 <= i < |visible| => Record(sub, visible[i]))
  }

  /** Filtering a listing with a head filters the head, then the rest. */
  lemma VisibleCons(f: string, rest: seq<string>)
    ensures Visible([f] + rest) == (if StartsWith(f, ".") then [] else [f]) + Visible(rest)
  {
    assert ([f] + rest)[0] == f;
    assert ([f] + rest)[1..] == rest;
  }

  lemma {:induction false} VisibleConcat(a: seq<string>, b: seq<string>)
    ensures Visible(a + b) == Visible(a) + Visible(b)
  {
    if |a| > 0 {
      var h, t := a[0], a[1..];
      assert a == [h] + t;
      assert a + b == [h] + (t + b);
      VisibleCons(h, t + b);
      VisibleCons(h, t);
      VisibleConcat(t, b);
      var head := if StartsWith(h, ".") then [] else [h];
      ConcatAssoc(head, Visible(t), Visible(b));
    } else {
      assert a + b == b;
    }
  }

  /** The index of a listing is the indexes of its parts, in order. */
  lemma IndexConcat(sub: string, a: seq<string>, b: seq<string>)
    ensures Index(sub, a + b) == Index(sub, a) + Index(sub, b)
  {
    VisibleConcat(a, b);
    var va, vb := Visible(a), Visible(b);
    var r := Index(sub, a + b);
    forall i | 0 <= i < |r|
      ensures r[i] == (Index(sub, a) + Index(sub, b))[i]
    {
      if i < |va| {
        assert (va + vb)[i] == va[i];
      } else {
        assert (va + vb)[i] == vb[i - |va|];
      }
    }
  }

  /** A single file gives no record when it is hidden and one otherwise. */
  lemma IndexSingle(sub: string, f: string)
    ensures Index(sub, [f]) == if StartsWith(f, ".") then [] else [Record(sub, f)]
  {
    assert [f][1..] == [];
  }

  /** How a run ends. */
  datatype Outcome =
    | Usage                                // exit 1, nothing read
    | ReadFailed(path: string)             // exit 2
    | Written(path: string, records: seq<Source>)

  function ExitCode(o: Outcome): nat {
    match o
    case Usage => 1
    case ReadFailed(_) => 2
    case Written(_, _) => 0
  }

  /** The folder listed for the argument `sub`; `dir` is `__dirname`. */
  function AssetsPath(dir: string, sub: string): string {
    dir + "/public/assets/" + sub
  }

  /** The whole script for the command-line arguments after the script
      name; `readdir` answers a path with its file names or an error. */
  function Run(dir: string, args: seq<string>, readdir: string -> Option<seq<string>>): (o: Outcome)
    ensures |args| != 1 <==> o == Usage
    ensures |args| == 1 ==> (o.ReadFailed? <==> readdir(AssetsPath(dir, args[0])).None?)
    ensures o.ReadFailed? ==> o.path == AssetsPath(dir, args[0])
    ensures o.Written? ==>
      && o.path == AssetsPath(dir, args[0])
      && o.records == Index(args[0], readdir(o.path).value)
  {
    if |args| != 1 then Usage
    else
      match readdir(AssetsPath(dir, args[0]))
      case None => ReadFailed(AssetsPath(dir, args[0]))
      case Some(files) => Written(AssetsPath(dir, args[0]), Index(args[0], files))
  }

  /** A wrong argument count stops the script with code 1 whatever the
      file system holds. */
  lemma UsageIgnoresFileSystem(dir: string, args: seq<string>, readdir: string -> Option<seq<string>>, readdir': string -> Option<seq<string>>)
    requires |args| != 1
    ensures Run(dir, args, readdir) == Run(dir, args, readdir') && ExitCode(Run(dir, args, readdir)) == 1
  {
  }

  /** The JSON form of a record. */
  function SourceObject(s: Source): (o: JsObject)
    ensures IsSource(o) && AsSource(o) == s
  {
    SourceObjectIsSource(s);
    map["id" := Str(s.id), "name" := Str(s.name), "url" := Str(s.url)]
  }

  /** Whatever the generator writes is accepted by the source list, which
      holds the same records, reordered by name. */
  lemma IndexIsAccepted(sub: string, files: seq<string>, le: Order)
    ensures var records := Index(sub, files);
      multiset(ValidSources(JsonArray(seq(|records|, i requires 0 <= i < |records| => SourceObject(records[i]))), le))
        == multiset(records)
  {
    var records := Index(sub, files);
    var items := seq(|records|, i requires 0 <= i < |records| => SourceObject(records[i]));
    assert forall i :: 0 <= i < |items| ==> IsSource(items[i]);
    assert Typed(items) == records;
  }
}
