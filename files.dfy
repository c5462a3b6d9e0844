/** The workspace directory tree: files keyed by their path below the
    workspace root, each with its content and modification time, and the set
    of directories. The operations are the `os` and `shutil` calls the
    stages make, each returning the error Python would raise. */
module Files {
  import opened Base
  import opened Text
  import opened JsonDoc

  /** One line of an ffmpeg concat list: `file '<image>'` or `duration <d>`. */
  datatype ConcatLine = FileLine(image: Path) | DurationLine(seconds: Json)

  datatype Content =
    | Doc(doc: Json)                               // written by json.dump
    | Wave(channels: nat, sampleWidth: nat, frameRate: nat, frames: seq<bv8>)
    | Card(text: string)                           // a PNG text card
    | Manifest(lines: seq<ConcatLine>)             // an ffmpeg concat list
    | Video(manifest: Path, audio: Path)           // an encoded video
    | Other                                        // anything else

  datatype File = File(content: Content, mtime: real)

  datatype Disk = Disk(files: map<Path, File>, dirs: set<Path>)

  /** Paths are non-empty; no path is both a file and a directory; every
      proper prefix of a file or directory is a directory (the workspace root
      itself, the empty path, always exists). */
  ghost predicate Wf(d: Disk) {
    && (forall p :: p in d.files ==> p != [] && p !in d.dirs)
    && (forall p, k :: p in d.files && 0 < k < |p| ==> p[..k] in d.dirs)
    && (forall q :: q in d.dirs ==> q != [])
    && (forall q, k :: q in d.dirs && 0 < k < |q| ==> q[..k] in d.dirs)
  }

  /** `os.path.exists`. */
  predicate Exists(d: Disk, p: Path) {
    p == [] || p in d.files || p in d.dirs
  }

  predicate IsDir(d: Disk, p: Path) {
    p == [] || p in d.dirs
  }

  function Parent(p: Path): Path
    requires p != []
  {
    p[..|p| - 1]
  }

  /** `p` lies strictly below `q`. */
  predicate Below(p: Path, q: Path) {
    |q| < |p| && p[..|q|] == q
  }

  /** `os.listdir(q)`: the names of the entries directly inside `q`. */
  function ListDir(d: Disk, q: Path): (names: set<string>)
    ensures forall n :: n in names <==> (q + [n] in d.files || q + [n] in d.dirs)
  {
    var fromFiles := set p | p in d.files && |p| == |q| + 1 && p[..|q|] == q :: p[|q|];
    var fromDirs := set p | p in d.dirs && |p| == |q| + 1 && p[..|q|] == q :: p[|q|];
    assert forall n :: q + [n] in d.files ==> (q + [n])[..|q|] == q && (q + [n])[|q|] == n;
    assert forall n :: q + [n] in d.dirs ==> (q + [n])[..|q|] == q && (q + [n])[|q|] == n;
    assert forall p :: |p| == |q| + 1 && p[..|q|] == q ==> p == q + [p[|q|]];
    fromFiles + fromDirs
  }

  /** `os.makedirs(q, exist_ok=True)`: every missing directory on the way to
      `q` is created; it fails when one of those prefixes is a file. */
  function MakeDirs(d: Disk, q: Path): (r: Result<Disk>)
    ensures r.Ok? <==> forall k :: 0 < k <= |q| ==> q[..k] !in d.files
    ensures r.Ok? ==> (r.value.files == d.files && IsDir(r.value, q)
                       && r.value.dirs == d.dirs + set k | 0 < k <= |q| :: q[..k])
  {
    if exists k :: 0 < k <= |q| && q[..k] in d.files then
      Err(OSError(q))
    else
      assert q != [] ==> q[..|q|] == q;
      Ok(d.(dirs := d.dirs + set k | 0 < k <= |q| :: q[..k]))
  }

  lemma MakeDirsWf(d: Disk, q: Path)
    requires Wf(d) && MakeDirs(d, q).Ok?
    ensures Wf(MakeDirs(d, q).value)
  {
    var e := MakeDirs(d, q).value;
    forall p | p in e.dirs ensures p != [] && p !in e.files && forall k :: 0 < k < |p| ==> p[..k] in e.dirs {
      if p !in d.dirs {
        var j :| 0 < j <= |q| && p == q[..j];
        forall k | 0 < k < |p| ensures p[..k] in e.dirs {
          assert p[..k] == q[..k];
        }
      }
    }
  }

  /** Opening `p` for writing and writing `c`: fails when `p` is a directory
      or its parent directory does not exist. */
  function WriteFile(d: Disk, p: Path, c: Content, now: real): (r: Result<Disk>)
    requires p != []
    ensures r.Ok? <==> p !in d.dirs && IsDir(d, Parent(p))
    ensures r.Ok? ==> r.value == d.(files := d.files[p := File(c, now)])
  {
    if p in d.dirs || !IsDir(d, Parent(p)) then Err(OSError(p))
    else Ok(d.(files := d.files[p := File(c, now)]))
  }

  lemma WriteFileWf(d: Disk, p: Path, c: Content, now: real)
    requires Wf(d) && p != [] && WriteFile(d, p, c, now).Ok?
    ensures Wf(WriteFile(d, p, c, now).value)
  {
    var e := WriteFile(d, p, c, now).value;
    forall k | 0 < k < |p| ensures p[..k] in e.dirs {
      assert Parent(p)[..k] == p[..k];
    }
  }

  /** `os.makedirs(<dir>, exist_ok=True)` followed by writing `<dir>/<name>`,
      the way every stage stores its per-post output. Creating the directory
      takes effect even when the write then fails. */
  function WriteIn(d: Disk, dir: string, name: string, c: Content, now: real): (r: (Disk, Result<Path>))
    ensures r.1.Ok? <==> [dir] !in d.files && [dir, name] !in d.dirs
    ensures r.1.Ok? ==> r.1.value == [dir, name]
    ensures r.0.files == if r.1.Ok? then d.files[[dir, name] := File(c, now)] else d.files
    ensures r.0.dirs == if [dir] in d.files then d.dirs else d.dirs + {[dir]}
  {
    assert [dir][..1] == [dir];
    assert forall k :: 0 < k <= 1 ==> [dir][..k] == [dir];
    match MakeDirs(d, [dir])
    case Err(e) => (d, Err(e))
    case Ok(d1) =>
      assert Parent([dir, name]) == [dir];
      match WriteFile(d1, [dir, name], c, now)
      case Err(e) => (d1, Err(e))
      case Ok(d2) => (d2, Ok([dir, name]))
  }

  lemma WriteInWf(d: Disk, dir: string, name: string, c: Content, now: real)
    requires Wf(d)
    ensures Wf(WriteIn(d, dir, name, c, now).0)
  {
    assert [dir][..1] == [dir];
    if [dir] !in d.files {
      MakeDirsWf(d, [dir]);
      var d1 := MakeDirs(d, [dir]).value;
      assert Parent([dir, name]) == [dir];
      if WriteFile(d1, [dir, name], c, now).Ok? {
        WriteFileWf(d1, [dir, name], c, now);
      }
    }
  }

  /** `json.load(open(p))`: a JSON document comes back as written; any other
      file does not parse; a missing path or a directory cannot be opened. */
  function ReadJson(d: Disk, p: Path): (r: Result<Json>)
    ensures r.Ok? <==> p in d.files && d.files[p].content.Doc?
    ensures r.Ok? ==> r.value == d.files[p].content.doc
  {
    if p !in d.files then Err(OSError(p))
    else match d.files[p].content
      case Doc(j) => Ok(j)
      case _ => Err(JsonDecodeError)
  }

  /** `os.remove(p)`: only a file can be removed. */
  function RemoveFile(d: Disk, p: Path): (r: Result<Disk>)
    ensures r.Ok? <==> p in d.files
    ensures r.Ok? ==> r.value == d.(files := d.files - {p})
  {
    if p in d.files then Ok(d.(files := d.files - {p})) else Err(OSError(p))
  }

  /** `shutil.move(src, dst)` for a file source and a destination whose parent
      directory exists: the file is renamed and keeps its content and
      modification time. A destination that is a directory is refused. */
  function Move(d: Disk, src: Path, dst: Path): (r: Result<Disk>)
    requires dst != []
    ensures r.Ok? <==> src in d.files && dst !in d.dirs && IsDir(d, Parent(dst))
    ensures r.Ok? && src != dst ==>
              (dst in r.value.files && src !in r.value.files
               && r.value.files[dst] == d.files[src] && r.value.dirs == d.dirs
               && (forall p :: p != src && p != dst ==> (p in r.value.files <==> p in d.files))
               && forall p :: p in d.files && p != src && p != dst ==> r.value.files[p] == d.files[p])
    ensures r.Ok? && src == dst ==> r.value == d
  {
    if src !in d.files || dst in d.dirs || !IsDir(d, Parent(dst)) then Err(OSError(src))
    else Ok(d.(files := (d.files - {src})[dst := d.files[src]]))
  }

  lemma MoveWf(d: Disk, src: Path, dst: Path)
    requires Wf(d) && dst != [] && Move(d, src, dst).Ok?
    ensures Wf(Move(d, src, dst).value)
  {
    var e := Move(d, src, dst).value;
    forall k | 0 < k < |dst| ensures dst[..k] in e.dirs {
      assert Parent(dst)[..k] == dst[..k];
    }
  }

  lemma RemoveFileWf(d: Disk, p: Path)
    requires Wf(d) && RemoveFile(d, p).Ok?
    ensures Wf(RemoveFile(d, p).value)
  {
  }

  // ---------------------------------------------------------------------
  // Directory listings

  /** `order` lists every name of `names` exactly once: `os.listdir` returns
      the entries in an order the program does not choose. */
  ghost predicate Enumerates(order: seq<string>, names: set<string>) {
    && (forall i, j :: 0 <= i < j < |order| ==> order[i] != order[j])
    && (forall n :: n in names <==> n in order)
  }

  /** `os.listdir` as the environment answers it. Nothing constrains the
      answer; a lemma that needs it to name each entry of the directory once
      says so with `Enumerates`. */
  type Lister = (Disk, Path) -> seq<string>

  const JsonSuffix := ".json"

  /** `[f for f in names if f.endswith(suffix)]`. */
  function WithSuffix(order: seq<string>, suffix: string): (r: seq<string>)
    ensures forall n :: n in r <==> n in order && EndsWith(n, suffix)
    ensures |r| <= |order|
    decreases |order|
  {
    if order == [] then []
    else
      var init := WithSuffix(order[..|order| - 1], suffix);
      var last := order[|order| - 1];
      assert forall n :: n in order <==> n in order[..|order| - 1] || n == last;
      if EndsWith(last, suffix) then init + [last] else init
  }

  /** No name occurs twice. */
  predicate Distinct(xs: seq<string>) {
    forall i, j :: 0 <= i < j < |xs| ==> xs[i] != xs[j]
  }

  /** Filtering a listing keeps its names distinct. */
  lemma {:induction false} WithSuffixDistinct(order: seq<string>, suffix: string)
    requires Distinct(order)
    ensures Distinct(WithSuffix(order, suffix))
    decreases |order|
  {
    if order != [] {
      var init, last := order[..|order| - 1], order[|order| - 1];
      WithSuffixDistinct(init, suffix);
      var r0 := WithSuffix(init, suffix);
      assert last !in init;
      assert last !in r0;
      if EndsWith(last, suffix) {
        var r := r0 + [last];
        forall i, j | 0 <= i < j < |r| ensures r[i] != r[j] {
          if j == |r0| {
            assert r[i] == r0[i] && r[i] in r0;
          } else {
            assert r[i] == r0[i] && r[j] == r0[j];
          }
        }
      }
    }
  }

  /** The `.json` names of a listing. */
  function JsonFiles(order: seq<string>): (r: seq<string>)
    ensures forall n :: n in r <==> n in order && EndsWith(n, JsonSuffix)
    ensures |r| <= |order|
  {
    WithSuffix(order, JsonSuffix)
  }

  /** The post ids the stages derive from `.json` file names, with
      `name.replace(".json", "")`. */
  function Stems(names: seq<string>): (r: seq<string>)
    ensures |r| == |names|
    ensures forall i :: 0 <= i < |names| ==> r[i] == RemoveAll(names[i], JsonSuffix)
  {
    seq(|names|, i requires 0 <= i < |names| => RemoveAll(names[i], JsonSuffix))
  }

  /** When the listing names each entry of `names` once, every `.json`
      entry is at exactly one position of `JsonFiles(order)`, and the id the
      stages derive at that position is its stem. */
  lemma JsonEntriesListed(order: seq<string>, names: set<string>)
    requires Enumerates(order, names)
    ensures Distinct(JsonFiles(order))
    ensures forall i :: 0 <= i < |JsonFiles(order)| ==> JsonFiles(order)[i] in names
    ensures forall n :: n in names && EndsWith(n, JsonSuffix) ==>
      exists i :: 0 <= i < |JsonFiles(order)| && JsonFiles(order)[i] == n
                  && Stems(JsonFiles(order))[i] == RemoveAll(n, JsonSuffix)
  {
    WithSuffixDistinct(order, JsonSuffix);
    var js := JsonFiles(order);
    forall n | n in names && EndsWith(n, JsonSuffix)
      ensures exists i :: 0 <= i < |js| && js[i] == n && Stems(js)[i] == RemoveAll(n, JsonSuffix)
    {
      assert n in js;
      var i :| 0 <= i < |js| && js[i] == n;
    }
  }

  /** The position of one `.json` entry of an enumerating listing among the
      ids the stages derive from it. */
  lemma JsonEntryPosition(order: seq<string>, names: set<string>, n: string) returns (i: nat)
    requires Enumerates(order, names) && n in names && EndsWith(n, JsonSuffix)
    ensures i < |Stems(JsonFiles(order))| && JsonFiles(order)[i] == n
    ensures Stems(JsonFiles(order))[i] == RemoveAll(n, JsonSuffix)
  {
    JsonEntriesListed(order, names);
    i :| 0 <= i < |JsonFiles(order)| && JsonFiles(order)[i] == n && Stems(JsonFiles(order))[i] == RemoveAll(n, JsonSuffix);
  }

  /** A post id without a dot is recovered from its file name `<id>.json`. */
  lemma StemRoundTrip(id: string)
    requires '.' !in id
    ensures Stems([id + JsonSuffix]) == [id]
  {
    RemoveTrailingPattern(id, JsonSuffix);
  }
}
