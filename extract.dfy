/** Canonicalisation: every raw record becomes `canonical/<id>.json`, a
    projection of the record whose free text has links, e-mail addresses and
    phone numbers replaced by markers. The three regular expressions are
    opaque: each is given by how long its match at a position is. */
module Extract {
  import opened Base
  import opened Text
  import opened JsonDoc
  import opened Files
  import opened Store

  const LinkMarker := "[link removed]"
  const EmailMarker := "[email removed]"
  const PhoneMarker := "[phone removed]"

  /** The three patterns of `sanitize_text`: each maps the text from a
      position onwards to the length of the match starting there (0 for
      none). None of them matches the empty string. */
  datatype Redactors = Redactors(link: string -> nat, email: string -> nat, phone: string -> nat)

  /** `re.sub(pattern, marker, s)`: scanning from the left, each match is
      replaced by `marker` and the scan resumes after it. */
  function Substitute(s: string, pattern: string -> nat, marker: string): (r: string)
    ensures (forall i :: 0 <= i < |s| ==> pattern(s[i..]) == 0) ==> r == s
    decreases |s|
  {
    if s == [] then []
    else
      var n := if pattern(s) < |s| then pattern(s) else |s|;
      if n == 0 then
        assert forall i :: 0 <= i < |s| - 1 ==> s[1..][i..] == s[i + 1..];
        [s[0]] + Substitute(s[1..], pattern, marker)
      else
        assert s[0..] == s;
        marker + Substitute(s[n..], pattern, marker)
  }

  /** `sanitize_text(text)`: a falsy value gives ""; a string goes through
      the link, e-mail and phone passes in that order and is stripped; any
      other value makes `re.sub` raise. */
  function Sanitize(text: Json, rx: Redactors): (r: Result<string>)
    ensures !Truthy(text) ==> r == Ok("")
    ensures r.Ok? <==> !Truthy(text) || text.Str?
    ensures r.Ok? ==> NoEdgeSpace(r.value)
  {
    if !Truthy(text) then Ok("")
    else if !text.Str? then Err(TypeError)
    else
      var unlinked := Substitute(text.s, rx.link, LinkMarker);
      var unmailed := Substitute(unlinked, rx.email, EmailMarker);
      var unphoned := Substitute(unmailed, rx.phone, PhoneMarker);
      Ok(Strip(unphoned))
  }

  /** Text in which no pattern matches anywhere, and which has no leading or
      trailing whitespace, comes back unchanged. */
  lemma SanitizeClean(s: string, rx: Redactors)
    requires forall i :: 0 <= i < |s| ==> rx.link(s[i..]) == 0 && rx.email(s[i..]) == 0 && rx.phone(s[i..]) == 0
    requires NoEdgeSpace(s)
    ensures Sanitize(Str(s), rx) == Ok(s)
  {
    StripClean(s);
  }

  /** One entry of `comments_data` in canonical form. */
  function CanonicalComment(c: Json, rx: Redactors): Result<Json> {
    var author :- Index(c, "author");
    var body :- Index(c, "body");
    var clean :- Sanitize(body, rx);
    var score :- Index(c, "score");
    Ok(Obj([Field("author", author), Field("body", Str(clean)), Field("score", score)]))
  }

  /** The comment loop: each entry in order; the first failing one raises. */
  function CanonicalComments(cs: seq<Json>, rx: Redactors): Result<seq<Json>> {
    MapAll(cs, c => CanonicalComment(c, rx))
  }

  /** The canonical record: `id` and `subreddit` as in the raw record,
      the sanitized `title`, the raw author as `op`, the sanitized `selftext`
      and the converted comments. */
  datatype Record = Record(id: Json, subreddit: Json, title: string, op: Json, selftext: string, comments: seq<Json>)

  /** The document `json.dump` writes for a record. */
  function RecordDoc(c: Record): Json {
    Obj([Field("id", c.id), Field("subreddit", c.subreddit), Field("title", Str(c.title)), Field("op", c.op),
         Field("selftext", Str(c.selftext)), Field("comments", Arr(c.comments))])
  }

  /** Iterating over `comments_data` and converting each element. */
  function CommentsOf(data: Json, rx: Redactors): Result<seq<Json>> {
    var items :- Elements(data);
    CanonicalComments(items, rx)
  }

  /** The canonical record of a raw record, built field by field in the
      order of the dict literal; the first failing field raises. */
  function Canonical(raw: Json, rx: Redactors): (r: Result<Record>)
    ensures r.Ok? ==> raw.Obj?
    ensures r.Ok? ==> && Index(raw, "id") == Ok(r.value.id)
                      && Index(raw, "subreddit") == Ok(r.value.subreddit)
                      && Index(raw, "author") == Ok(r.value.op)
                      && Index(raw, "title").Ok? && Sanitize(Index(raw, "title").value, rx) == Ok(r.value.title)
                      && Sanitize(Get(raw, "selftext", Str("")).value, rx) == Ok(r.value.selftext)
    ensures r.Ok? && !HasKey(raw.fields, "comments_data") ==> r.value.comments == []
    ensures r.Ok? && HasKey(raw.fields, "comments_data") ==>
              CommentsOf(Index(raw, "comments_data").value, rx) == Ok(r.value.comments)
  {
    var id :- Index(raw, "id");
    var subreddit :- Index(raw, "subreddit");
    var rawTitle :- Index(raw, "title");
    var title :- Sanitize(rawTitle, rx);
    var op :- Index(raw, "author");
    // `raw` is a dict from here on: `.get` and `in` cannot fail.
    var rawSelftext := Get(raw, "selftext", Str("")).value;
    var selftext :- Sanitize(rawSelftext, rx);
    var comments :-
      if HasKey(raw.fields, "comments_data") then CommentsOf(Index(raw, "comments_data").value, rx) else Ok([]);
    Ok(Record(id, subreddit, title, op, selftext, comments))
  }

  /** Reading the copied fields of the written document back gives the
      record's values. */
  lemma RecordDocCopied(c: Record)
    ensures Index(RecordDoc(c), "id") == Ok(c.id)
    ensures Index(RecordDoc(c), "subreddit") == Ok(c.subreddit)
    ensures Index(RecordDoc(c), "op") == Ok(c.op)
  {
    var fs := RecordDoc(c).fields;
    FindFirst(fs, 0);
    FindFirst(fs, 1);
    FindFirst(fs, 3);
  }

  /** Reading the converted fields of the written document back gives the
      record's strings and comment list. */
  lemma RecordDocConverted(c: Record)
    ensures Index(RecordDoc(c), "title") == Ok(Str(c.title))
    ensures Index(RecordDoc(c), "selftext") == Ok(Str(c.selftext))
    ensures Index(RecordDoc(c), "comments") == Ok(Arr(c.comments))
  {
    var fs := RecordDoc(c).fields;
    FindFirst(fs, 2);
    FindFirst(fs, 4);
    FindFirst(fs, 5);
  }

  /** A comment converts exactly when it is a dict with an author, a body
      that can be sanitized, and a score. */
  lemma CanonicalCommentOk(c: Json, rx: Redactors)
    ensures CanonicalComment(c, rx).Ok? <==>
              Index(c, "author").Ok? && Index(c, "body").Ok? && Index(c, "score").Ok?
              && Sanitize(Index(c, "body").value, rx).Ok?
  {
  }

  /** A converted comment keeps the author and the score and has its body
      sanitized. */
  lemma CanonicalCommentFields(c: Json, rx: Redactors)
    requires CanonicalComment(c, rx).Ok?
    ensures var out := CanonicalComment(c, rx).value;
      && Index(out, "author") == Index(c, "author")
      && Index(out, "body") == Ok(Str(Sanitize(Index(c, "body").value, rx).value))
      && Index(out, "score") == Index(c, "score")
  {
    var fs := CanonicalComment(c, rx).value.fields;
    FindFirst(fs, 0);
    FindFirst(fs, 1);
    FindFirst(fs, 2);
  }

  function RawFile(id: string): Path {
    ["raw", id + JsonSuffix]
  }

  function CanonicalFile(id: string): Path {
    ["canonical", id + JsonSuffix]
  }

  /** Reading the raw file and building its canonical record. */
  function ReadRecord(d: Disk, id: string, rx: Redactors): Result<Record> {
    var raw :- ReadJson(d, RawFile(id));
    Canonical(raw, rx)
  }

  /** `extract_canonical(post_id)`: no raw file means nothing happens and
      None is returned; otherwise the raw record is read, converted and
      written over `canonical/<id>.json`, whose path is returned. Only that
      file and the `canonical` directory can change. */
  function ExtractOne(d: Disk, id: string, rx: Redactors, now: real): (r: (Disk, Result<Option<Path>>))
    ensures r.1 == Ok(None) <==> !Exists(d, RawFile(id))
    ensures !Exists(d, RawFile(id)) ==> r == (d, Ok(None))
    ensures r.1.Ok? && r.1.value.Some? ==>
              && r.1.value.value == CanonicalFile(id)
              && ReadRecord(d, id, rx).Ok?
              && r.0.files == d.files[CanonicalFile(id) := File(Doc(RecordDoc(ReadRecord(d, id, rx).value)), now)]
    ensures r.0.files - {CanonicalFile(id)} == d.files - {CanonicalFile(id)}
    ensures d.dirs <= r.0.dirs <= d.dirs + {["canonical"]}
  {
    if !Exists(d, RawFile(id)) then (d, Ok(None))
    else
      match ReadRecord(d, id, rx)
      case Err(e) => (d, Err(e))
      case Ok(rec) =>
        var (d1, w) := WriteIn(d, "canonical", id + JsonSuffix, Doc(RecordDoc(rec)), now);
        (d1, if w.Ok? then Ok(Some(w.value)) else Err(w.error))
  }

  /** Extracting the same post again at the same time changes nothing more:
      the raw file it reads is not among the files it writes. */
  lemma ExtractRepeatable(d: Disk, id: string, rx: Redactors, now: real)
    ensures var d1 := ExtractOne(d, id, rx, now).0;
      ExtractOne(d1, id, rx, now) == (d1, ExtractOne(d, id, rx, now).1)
  {
    var (d1, r1) := ExtractOne(d, id, rx, now);
    var raw, out := RawFile(id), CanonicalFile(id);
    assert raw != out by { assert raw[0] != out[0]; }
    assert raw in d1.files <==> raw in d.files by {
      assert raw in d1.files - {out} <==> raw in d.files - {out};
    }
    assert raw in d1.files ==> d1.files[raw] == d.files[raw] by {
      assert raw in d1.files ==> (d1.files - {out})[raw] == (d.files - {out})[raw];
    }
    assert raw in d1.dirs <==> raw in d.dirs;
    assert Exists(d1, raw) == Exists(d, raw);
    assert ReadJson(d1, raw) == ReadJson(d, raw);
    assert ReadRecord(d1, id, rx) == ReadRecord(d, id, rx);
    if Exists(d, raw) && ReadRecord(d, id, rx).Ok? {
      var c := Doc(RecordDoc(ReadRecord(d, id, rx).value));
      var w := WriteIn(d, "canonical", id + JsonSuffix, c, now);
      assert d1 == w.0;
      var w2 := WriteIn(d1, "canonical", id + JsonSuffix, c, now);
      assert ["canonical"] in d1.files <==> ["canonical"] in d.files by {
        assert ["canonical"] != out;
        assert ["canonical"] in d1.files - {out} <==> ["canonical"] in d.files - {out};
      }
      assert out in d1.dirs <==> out in d.dirs;
      assert w2.1 == w.1;
      assert w2.0.dirs == d1.dirs;
      assert w2.0.files == d1.files;
    }
  }

  /** The loop of `run_extraction` over the ids: every exception is caught
      and the loop goes on. */
  function ExtractAll(d: Disk, ids: seq<string>, rx: Redactors, now: real): Disk
    decreases |ids|
  {
    if ids == [] then d
    else ExtractOne(ExtractAll(d, ids[..|ids| - 1], rx, now), ids[|ids| - 1], rx, now).0
  }

  /** Extraction only ever writes files under `canonical/`. */
  lemma {:induction false} ExtractAllWritesCanonical(d: Disk, ids: seq<string>, rx: Redactors, now: real)
    ensures var d2 := ExtractAll(d, ids, rx, now);
      forall p :: p in d.files && (p == [] || p[0] != "canonical") ==> p in d2.files && d2.files[p] == d.files[p]
    decreases |ids|
  {
    if ids != [] {
      ExtractAllWritesCanonical(d, ids[..|ids| - 1], rx, now);
    }
  }

  /** `run_extraction()` for the listing of `raw/` in the given order: no
      `raw/` means nothing to do; `raw/` being a file makes the listing
      raise; otherwise each `.json` entry is extracted under its id. */
  function RunExtractionSpec(d: Disk, order: seq<string>, rx: Redactors, now: real): (Disk, Result<()>) {
    if !Exists(d, ["raw"]) then (d, Ok(()))
    else if ["raw"] in d.files then (d, Err(OSError(["raw"])))
    else (ExtractAll(d, Stems(JsonFiles(order)), rx, now), Ok(()))
  }

  /** The id at position `i` is extracted from the disk the ids before it
      left. */
  ghost predicate ExtractedAt(d: Disk, ids: seq<string>, i: nat, rx: Redactors, now: real)
    requires i < |ids|
  {
    ExtractAll(d, ids[..i + 1], rx, now) == ExtractOne(ExtractAll(d, ids[..i], rx, now), ids[i], rx, now).0
  }

  lemma ExtractAllAt(d: Disk, ids: seq<string>, i: nat, rx: Redactors, now: real)
    requires i < |ids|
    ensures ExtractedAt(d, ids, i, rx, now)
  {
    assert ids[..i + 1][..i] == ids[..i];
  }

  /** `run_extraction` calls `extract_canonical` for every `.json` file of
      `raw/`: when the listing names each entry once, the stem of every such
      entry is among the ids visited, and it is extracted in its turn. */
  lemma ExtractionCoversListing(d: Disk, order: seq<string>, rx: Redactors, now: real, n: string)
    requires ["raw"] in d.dirs && ["raw"] !in d.files
    requires Enumerates(order, ListDir(d, ["raw"]))
    requires n in ListDir(d, ["raw"]) && EndsWith(n, JsonSuffix)
    ensures RunExtractionSpec(d, order, rx, now) == (ExtractAll(d, Stems(JsonFiles(order)), rx, now), Ok(()))
    ensures var ids := Stems(JsonFiles(order));
      exists i :: 0 <= i < |ids| && ids[i] == RemoveAll(n, JsonSuffix) && ExtractedAt(d, ids, i, rx, now)
  {
    var i := JsonEntryPosition(order, ListDir(d, ["raw"]), n);
    ExtractAllAt(d, Stems(JsonFiles(order)), i, rx, now);
  }

  // ---------------------------------------------------------------------
  // The imperative stage

  /** The comment loop of `extract_canonical`. */
  method ConvertComments(cs: seq<Json>, rx: Redactors) returns (r: Result<seq<Json>>)
    ensures r == CanonicalComments(cs, rx)
  {
    var out: seq<Json> := [];
    var i := 0;
    while i < |cs|
      invariant 0 <= i <= |cs|
      invariant CanonicalComments(cs[..i], rx) == Ok(out)
    {
      assert cs[..i + 1][..i] == cs[..i];
      var c := CanonicalComment(cs[i], rx);
      if c.Err? {
        assert CanonicalComments(cs[..i + 1], rx).Err?;
        assert forall k :: 0 <= k < i + 1 ==> cs[..i + 1][k] == cs[k];
        return Err(c.error);
      }
      out := out + [c.value];
      i := i + 1;
    }
    assert cs[..i] == cs;
    return Ok(out);
  }

  /** `extract_canonical(post_id)`. */
  method ExtractCanonical(ws: Workspace, id: string, rx: Redactors, now: real) returns (r: Result<Option<Path>>)
    modifies ws
    ensures (ws.disk, r) == ExtractOne(old(ws.disk), id, rx, now)
    ensures ws.db == old(ws.db) && ws.encoderRuns == old(ws.encoderRuns)
  {
    if !Exists(ws.disk, RawFile(id)) {
      return Ok(None);
    }
    var raw :- ReadJson(ws.disk, RawFile(id));
    var rec :- Canonical(raw, rx);
    var (d1, written) := WriteIn(ws.disk, "canonical", id + JsonSuffix, Doc(RecordDoc(rec)), now);
    ws.disk := d1;
    if written.Err? {
      return Err(written.error);
    }
    return Ok(Some(written.value));
  }

  /** `run_extraction()`: `lister` answers its `os.listdir`. */
  method RunExtraction(ws: Workspace, rx: Redactors, now: real, lister: Lister) returns (r: Result<()>)
    modifies ws
    ensures (ws.disk, r) == RunExtractionSpec(old(ws.disk), lister(old(ws.disk), ["raw"]), rx, now)
    ensures ws.db == old(ws.db) && ws.encoderRuns == old(ws.encoderRuns)
  {
    var order := lister(ws.disk, ["raw"]);
    if !Exists(ws.disk, ["raw"]) {
      return Ok(());
    }
    if ["raw"] in ws.disk.files {
      return Err(OSError(["raw"]));
    }
    var ids := Stems(JsonFiles(order));
    ghost var d0 := ws.disk;
    var i := 0;
    while i < |ids|
      invariant 0 <= i <= |ids|
      invariant ws.disk == ExtractAll(d0, ids[..i], rx, now)
      invariant ws.db == old(ws.db) && ws.encoderRuns == old(ws.encoderRuns)
    {
      var _ := ExtractCanonical(ws, ids[i], rx, now);
      assert ids[..i + 1][..i] == ids[..i];
      i := i + 1;
    }
    assert ids[..i] == ids;
    return Ok(());
  }
}
