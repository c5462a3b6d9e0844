/** Moderation: each canonical record is shown to the classifier; a record
    it flags is moved to `flagged/` and gets a row in `flagged`, any other
    record stays where it is. Reading the record and building the classifier
    input happen outside the error handler, so their failures end the run. */
module Moderate {
  import opened Base
  import opened Text
  import opened JsonDoc
  import opened Files
  import opened Db
  import opened Store
  import opened GenAI
  import Extract

  /** `MODERATION_PROMPT` up to its one `{content}` placeholder: the instructions,
      then the platform rules; a newline follows the placeholder. Written
      as short literals joined, which the verifier handles far more cheaply
      than one long literal, and inside functions, which are only unfolded
      where a proof needs the text. */
  function ModerationTask(): string {
    "\nYou are a safety " +
    "classifier. Given the " +
    "following content (Reddit " +
    "post title, OP username, " +
    "top comments) and the " +
    "short platform rules for " +
    "TikTok/Instagram/YouTube, " +
    "answer in strict JSON: " +
    "{\"flag\": true|false, " +
    "\"reasons\": [\"...\"]}. Be " +
    "conservative \U{2014} if " +
    "borderline, flag and give " +
    "reasons. \n\n"
  }

  function PlatformRules(): string {
    "Platform rules: \n- No " +
    "hate speech or " +
    "harassment\n- No sexually " +
    "explicit content\n- No " +
    "dangerous activities or " +
    "self-harm\n- No graphic " +
    "violence\n- No illegal " +
    "goods or " +
    "services\n\nContent: \n"
  }

  function PromptIntro(): string {
    ModerationTask() + PlatformRules()
  }

  /** `MODERATION_PROMPT.replace("{content}", content)`. */
  function ModerationPrompt(content: string): string {
    PromptIntro() + content + "\n"
  }

  function FlaggedFile(id: string): Path {
    ["flagged", id + JsonSuffix]
  }

  /** The first three lines of the classifier input. */
  function ContentHead(data: Json): Result<string> {
    var title :- Index(data, "title");
    var op :- Index(data, "op");
    var selftext :- Index(data, "selftext");
    Ok("Title: " + Display(title) + "\nOP: " + Display(op) + "\nSelftext: " + Display(selftext) + "\n")
  }

  /** The line one comment adds. */
  function CommentLine(c: Json): Result<string> {
    var body :- Index(c, "body");
    Ok("Comment: " + Display(body) + "\n")
  }

  /** The entries of the record's `comments`. */
  function CommentsIn(data: Json): Result<seq<Json>> {
    var comments :- Index(data, "comments");
    Elements(comments)
  }

  /** The classifier input: the Title, OP and Selftext lines, then one
      Comment line per comment in order. */
  function ModerationContent(data: Json): Result<string> {
    var head :- ContentHead(data);
    var items :- CommentsIn(data);
    var block :- CommentBlock(items);
    Ok(head + block)
  }

  /** The Comment lines of `items`, in order, raising at the first comment
      without a `body`. */
  function CommentBlock(items: seq<Json>): Result<string>
    decreases |items|
  {
    if items == [] then Ok("")
    else
      var block :- CommentBlock(items[..|items| - 1]);
      var line :- CommentLine(items[|items| - 1]);
      Ok(block + line)
  }

  /** The block is the comments' lines, each computed on its own, run
      together. */
  lemma {:induction false} CommentBlockIsMapAll(items: seq<Json>)
    ensures CommentBlock(items) == match MapAll(items, CommentLine)
                                   case Ok(lines) => Ok(Flatten(lines))
                                   case Err(e) => Err(e)
    decreases |items|
  {
    if items != [] {
      var init := items[..|items| - 1];
      CommentBlockIsMapAll(init);
      match MapAll(init, CommentLine)
      case Err(_) =>
      case Ok(ys) =>
        match CommentLine(items[|items| - 1])
        case Err(_) =>
        case Ok(l) =>
          assert (ys + [l])[..|ys|] == ys;
    }
  }

  /** Once the block of a prefix is built and the next comment has no
      `body`, the whole block raises that error. */
  lemma {:induction false} CommentBlockStops(items: seq<Json>, i: nat)
    requires i < |items| && CommentBlock(items[..i]).Ok? && CommentLine(items[i]).Err?
    ensures CommentBlock(items) == Err(CommentLine(items[i]).error)
    decreases |items|
  {
    var init := items[..|items| - 1];
    if i == |items| - 1 {
      assert init == items[..i];
    } else {
      assert init[..i] == items[..i] && init[i] == items[i];
      CommentBlockStops(init, i);
    }
  }

  /** The input can be built exactly when the header fields and `comments`
      are present and every comment has a `body`. */
  lemma ContentOk(data: Json)
    ensures ModerationContent(data).Ok? <==>
      && ContentHead(data).Ok? && CommentsIn(data).Ok?
      && forall i :: 0 <= i < |CommentsIn(data).value| ==> Index(CommentsIn(data).value[i], "body").Ok?
  {
    if ContentHead(data).Ok? && CommentsIn(data).Ok? {
      var items := CommentsIn(data).value;
      CommentBlockIsMapAll(items);
      assert MapAll(items, CommentLine).Ok? <==> forall i :: 0 <= i < |items| ==> CommentLine(items[i]).Ok?;
    }
  }

  /** The input has one line per comment, each carrying that comment's body,
      after the three header lines. */
  lemma ContentLines(data: Json)
    requires ModerationContent(data).Ok?
    ensures var items := CommentsIn(data).value;
      exists lines: seq<string> ::
        && ModerationContent(data).value == ContentHead(data).value + Flatten(lines)
        && |lines| == |items|
        && forall i :: 0 <= i < |items| ==>
             Index(items[i], "body").Ok? && lines[i] == "Comment: " + Display(Index(items[i], "body").value) + "\n"
  {
    var items := CommentsIn(data).value;
    CommentBlockIsMapAll(items);
    var lines := MapAll(items, CommentLine).value;
    forall i | 0 <= i < |items|
      ensures Index(items[i], "body").Ok? && lines[i] == "Comment: " + Display(Index(items[i], "body").value) + "\n"
    {
      assert CommentLine(items[i]).Ok?;
    }
    assert ModerationContent(data).value == ContentHead(data).value + Flatten(lines);
  }

  /** `flag_post(post_id, reasons, source_path)`: create `flagged/`, move the
      file there, then upsert the row. Each step's effect stays when a later
      one raises. */
  function FlagPost(w: World, id: string, reasons: Json, src: Path, env: Env): (r: (World, Result<()>))
    ensures r.0.db == w.db || r.1.Ok?
    ensures r.1.Ok? ==> r.0.db == w.db.(flagged := w.db.flagged[id := FlagRow(reasons, env.now, FlaggedFile(id))])
    ensures r.0.encoderRuns == w.encoderRuns
  {
    match MakeDirs(w.disk, ["flagged"])
    case Err(e) => (w, Err(e))
    case Ok(d1) =>
      match Move(d1, src, FlaggedFile(id))
      case Err(e) => (w.(disk := d1), Err(e))
      case Ok(d2) =>
        match UpsertFlag(w.db, id, FlagRow(reasons, env.now, FlaggedFile(id)), env.faults)
        case Err(e) => (w.(disk := d2), Err(e))
        case Ok(db1) => (World(d2, db1, w.encoderRuns), Ok(()))
  }

  /** What the handler around the classifier call does with its reply: a
      truthy `flag` with `reasons` flags the post; anything that raises on
      the way is caught and leaves the rest undone. */
  function Decide(w: World, reply: Result<Json>, id: string, env: Env): World {
    match reply
    case Err(_) => w
    case Ok(result) =>
      match Get(result, "flag", Null)
      case Err(_) => w
      case Ok(flag) =>
        if !Truthy(flag) then w
        else
          match Index(result, "reasons")
          case Err(_) => w
          case Ok(reasons) => FlagPost(w, id, reasons, Extract.CanonicalFile(id), env).0
  }

  /** `moderate_post(post_id)` with the client's keys and replies. */
  function ModerateOne(w: World, s: Session, keys: seq<string>, remote: Remote, id: string, env: Env)
    : (r: (World, Session, Result<()>))
    requires CursorOk(keys, s.cursor)
    ensures CursorOk(keys, r.1.cursor)
  {
    var path := Extract.CanonicalFile(id);
    if !Exists(w.disk, path) then (w, s, Ok(()))
    else
      match ReadJson(w.disk, path)
      case Err(e) => (w, s, Err(e))
      case Ok(data) => ModerateRecord(w, s, keys, remote, data, id, env)
  }

  /** `moderate_post` once the record is read: build the classifier input,
      then classify. */
  function ModerateRecord(w: World, s: Session, keys: seq<string>, remote: Remote, data: Json, id: string, env: Env)
    : (r: (World, Session, Result<()>))
    requires CursorOk(keys, s.cursor)
    ensures CursorOk(keys, r.1.cursor)
  {
    match ModerationContent(data)
    case Err(e) => (w, s, Err(e))
    case Ok(content) => Classify(w, s, keys, remote, ModerationPrompt(content), id, env)
  }

  /** The classifier call and what `moderate_post` does with its answer;
      nothing raised inside its `try` escapes. */
  function Classify(w: World, s: Session, keys: seq<string>, remote: Remote, prompt: string, id: string, env: Env)
    : (r: (World, Session, Result<()>))
    requires CursorOk(keys, s.cursor)
    ensures CursorOk(keys, r.1.cursor) && r.2 == Ok(())
  {
    var (s1, reply) := JsonReply(keys, remote, prompt, DefaultRetries, s);
    (Decide(w, reply, id, env), s1, Ok(()))
  }

  // ---------------------------------------------------------------------
  // Properties of one post

  /** No canonical file: nothing happens and the classifier is not asked. */
  lemma MissingRecordUntouched(w: World, s: Session, keys: seq<string>, remote: Remote, id: string, env: Env)
    requires CursorOk(keys, s.cursor) && !Exists(w.disk, Extract.CanonicalFile(id))
    ensures ModerateOne(w, s, keys, remote, id, env) == (w, s, Ok(()))
  {
  }

  /** A reply that is not a flag (a falsy `flag`, or no `flag` at all) leaves
      the workspace and the tables as they were. */
  lemma PassedStays(w: World, result: Json, id: string, env: Env)
    requires result.Obj? && !Truthy(Get(result, "flag", Null).value)
    ensures Decide(w, Ok(result), id, env) == w
  {
  }

  /** A client failure, a reply that is not a dict, or a flag without
      `reasons` is caught before the move: nothing changes. */
  lemma FailureBeforeMoveStays(w: World, reply: Result<Json>, id: string, env: Env)
    requires || reply.Err?
             || !reply.value.Obj?
             || (Truthy(Get(reply.value, "flag", Null).value) && !HasKey(reply.value.fields, "reasons"))
    ensures Decide(w, reply, id, env) == w
  {
  }

  /** A flag whose move and row write both succeed: the file is gone from
      `canonical/`, present with the same content under `flagged/`, and the
      post's row (replacing any earlier one) holds the reasons and the new
      path. */
  lemma FlagMovesAndRecords(w: World, result: Json, id: string, env: Env)
    requires result.Obj? && Truthy(Get(result, "flag", Null).value) && HasKey(result.fields, "reasons")
    requires Extract.CanonicalFile(id) in w.disk.files
    requires ["flagged"] !in w.disk.files && FlaggedFile(id) !in w.disk.dirs
    requires (Flagged, id) !in env.faults
    ensures var w2 := Decide(w, Ok(result), id, env);
      && Extract.CanonicalFile(id) !in w2.disk.files
      && FlaggedFile(id) in w2.disk.files
      && w2.disk.files[FlaggedFile(id)] == w.disk.files[Extract.CanonicalFile(id)]
      && w2.db == w.db.(flagged := w.db.flagged[id := FlagRow(Index(result, "reasons").value, env.now, FlaggedFile(id))])
  {
    var src, dst := Extract.CanonicalFile(id), FlaggedFile(id);
    assert src != dst by { assert src[0] != dst[0]; }
    assert ["flagged"][..1] == ["flagged"];
    assert Parent(dst) == ["flagged"];
    var d1 := MakeDirs(w.disk, ["flagged"]).value;
    assert dst !in d1.dirs by {
      assert forall k :: 0 < k <= 1 ==> ["flagged"][..k] == ["flagged"];
    }
  }

  /** The move comes first: when the row write then fails, the file is under
      `flagged/` and the `flagged` table is as it was. */
  lemma RowFailureAfterMove(w: World, result: Json, id: string, env: Env)
    requires result.Obj? && Truthy(Get(result, "flag", Null).value) && HasKey(result.fields, "reasons")
    requires Extract.CanonicalFile(id) in w.disk.files
    requires ["flagged"] !in w.disk.files && FlaggedFile(id) !in w.disk.dirs
    requires (Flagged, id) in env.faults
    ensures var w2 := Decide(w, Ok(result), id, env);
      && Extract.CanonicalFile(id) !in w2.disk.files
      && FlaggedFile(id) in w2.disk.files
      && w2.db == w.db
  {
    var src, dst := Extract.CanonicalFile(id), FlaggedFile(id);
    assert src != dst by { assert src[0] != dst[0]; }
    assert ["flagged"][..1] == ["flagged"];
    assert Parent(dst) == ["flagged"];
    var d1 := MakeDirs(w.disk, ["flagged"]).value;
    assert dst !in d1.dirs by {
      assert forall k :: 0 < k <= 1 ==> ["flagged"][..k] == ["flagged"];
    }
  }

  /** Moderation touches only the `flagged` table, and changes the files only
      by moving `canonical/<id>.json` to `flagged/<id>.json`. */
  lemma DecideFrame(w: World, reply: Result<Json>, id: string, env: Env)
    ensures var w2 := Decide(w, reply, id, env);
      && w2.db.candidates == w.db.candidates && w2.db.scripts == w.db.scripts
      && w2.encoderRuns == w.encoderRuns
      && w2.disk.files - {Extract.CanonicalFile(id), FlaggedFile(id)} == w.disk.files - {Extract.CanonicalFile(id), FlaggedFile(id)}
  {
  }

  // ---------------------------------------------------------------------
  // The run

  /** `run_moderation()`'s loop: ids in listing order; an exception escaping
      `moderate_post` ends the run. */
  function ModerateAll(w: World, s: Session, keys: seq<string>, remote: Remote, ids: seq<string>, env: Env)
    : (r: (World, Session, Result<()>))
    requires CursorOk(keys, s.cursor)
    ensures CursorOk(keys, r.1.cursor)
    decreases |ids|
  {
    if ids == [] then (w, s, Ok(()))
    else
      var (w1, s1, r1) := ModerateAll(w, s, keys, remote, ids[..|ids| - 1], env);
      if r1.Err? then (w1, s1, r1)
      else ModerateOne(w1, s1, keys, remote, ids[|ids| - 1], env)
  }

  /** `run_moderation()` for the listing of `canonical/` in the given order. */
  function RunModerationSpec(w: World, s: Session, keys: seq<string>, remote: Remote, order: seq<string>, env: Env)
    : (r: (World, Session, Result<()>))
    requires CursorOk(keys, s.cursor)
    ensures CursorOk(keys, r.1.cursor)
  {
    if !Exists(w.disk, ["canonical"]) then (w, s, Ok(()))
    else if ["canonical"] in w.disk.files then (w, s, Err(OSError(["canonical"])))
    else ModerateAll(w, s, keys, remote, Stems(JsonFiles(order)), env)
  }

  /** One more id: visited only while nothing has escaped. */
  lemma ModerateAllStep(w: World, s: Session, keys: seq<string>, remote: Remote, ids: seq<string>, i: nat, env: Env)
    requires CursorOk(keys, s.cursor) && i < |ids|
    requires ModerateAll(w, s, keys, remote, ids[..i], env).2.Ok?
    ensures var (w1, s1, _) := ModerateAll(w, s, keys, remote, ids[..i], env);
      ModerateAll(w, s, keys, remote, ids[..i + 1], env) == ModerateOne(w1, s1, keys, remote, ids[i], env)
  {
    assert ids[..i + 1][..i] == ids[..i];
  }

  /** One more id after a prefix that raised nothing: the loop's state is
      what moderating that id makes of the prefix's state, and an exception
      there ends the whole loop with that state. */
  lemma ModerateAllNext(w: World, s: Session, keys: seq<string>, remote: Remote, ids: seq<string>, i: nat, env: Env,
                        wi: World, si: Session, w1: World, s1: Session, r1: Result<()>)
    requires CursorOk(keys, s.cursor) && i < |ids|
    requires ModerateAll(w, s, keys, remote, ids[..i], env) == (wi, si, Ok(()))
    requires CursorOk(keys, si.cursor) && (w1, s1, r1) == ModerateOne(wi, si, keys, remote, ids[i], env)
    ensures ModerateAll(w, s, keys, remote, ids[..i + 1], env) == (w1, s1, r1)
    ensures r1.Err? ==> ModerateAll(w, s, keys, remote, ids, env) == (w1, s1, r1)
  {
    ModerateAllStep(w, s, keys, remote, ids, i, env);
    if r1.Err? {
      ModerationStopsAtError(w, s, keys, remote, ids, i + 1, env);
    }
  }

  /** After an escaping exception the remaining ids are not visited. */
  lemma {:induction false} ModerationStopsAtError(w: World, s: Session, keys: seq<string>, remote: Remote,
                                                  ids: seq<string>, k: nat, env: Env)
    requires CursorOk(keys, s.cursor) && k <= |ids|
    requires ModerateAll(w, s, keys, remote, ids[..k], env).2.Err?
    ensures ModerateAll(w, s, keys, remote, ids, env) == ModerateAll(w, s, keys, remote, ids[..k], env)
    decreases |ids| - k
  {
    if k < |ids| {
      assert ids[..k + 1][..k] == ids[..k];
      ModerationStopsAtError(w, s, keys, remote, ids, k + 1, env);
    } else {
      assert ids[..k] == ids;
    }
  }

  /** The id at position `i` is moderated as soon as the ids before it have
      raised nothing, and a run that raised nothing reached it. */
  ghost predicate ModeratedAt(w: World, s: Session, keys: seq<string>, remote: Remote, ids: seq<string>, i: nat, env: Env)
    requires CursorOk(keys, s.cursor) && i < |ids|
  {
    var (w1, s1, r1) := ModerateAll(w, s, keys, remote, ids[..i], env);
    && (r1.Ok? ==> ModerateAll(w, s, keys, remote, ids[..i + 1], env) == ModerateOne(w1, s1, keys, remote, ids[i], env))
    && (ModerateAll(w, s, keys, remote, ids, env).2.Ok? ==> r1.Ok?)
  }

  lemma ModerateAllAt(w: World, s: Session, keys: seq<string>, remote: Remote, ids: seq<string>, i: nat, env: Env)
    requires CursorOk(keys, s.cursor) && i < |ids|
    ensures ModeratedAt(w, s, keys, remote, ids, i, env)
  {
    if ModerateAll(w, s, keys, remote, ids[..i], env).2.Ok? {
      ModerateAllStep(w, s, keys, remote, ids, i, env);
    } else {
      ModerationStopsAtError(w, s, keys, remote, ids, i, env);
    }
  }

  /** `run_moderation` calls `moderate_post` for every `.json` file of
      `canonical/`: when the listing names each entry once, the stem of
      every such entry is among the ids visited, it is moderated as soon as
      the ids before it have raised nothing, and a run that raised nothing
      reached it. */
  lemma ModerationCoversListing(w: World, s: Session, keys: seq<string>, remote: Remote, order: seq<string>,
                                env: Env, n: string)
    requires CursorOk(keys, s.cursor)
    requires ["canonical"] in w.disk.dirs && ["canonical"] !in w.disk.files
    requires Enumerates(order, ListDir(w.disk, ["canonical"]))
    requires n in ListDir(w.disk, ["canonical"]) && EndsWith(n, JsonSuffix)
    ensures RunModerationSpec(w, s, keys, remote, order, env) == ModerateAll(w, s, keys, remote, Stems(JsonFiles(order)), env)
    ensures var ids := Stems(JsonFiles(order));
      exists i :: 0 <= i < |ids| && ids[i] == RemoveAll(n, JsonSuffix) && ModeratedAt(w, s, keys, remote, ids, i, env)
  {
    var i := JsonEntryPosition(order, ListDir(w.disk, ["canonical"]), n);
    ModerateAllAt(w, s, keys, remote, Stems(JsonFiles(order)), i, env);
  }

  // ---------------------------------------------------------------------
  // The imperative stage

  /** The `content +=` loop of `moderate_post`: one Comment line per
      comment appended to `head`, stopping at the first comment without a
      `body`. */
  method AppendComments(head: string, items: seq<Json>) returns (r: Result<string>)
    ensures r.Ok? <==> CommentBlock(items).Ok?
    ensures r.Ok? ==> r.value == head + CommentBlock(items).value
    ensures r.Err? ==> r.error == CommentBlock(items).error
  {
    var content := head;
    ghost var block := "";
    var i := 0;
    while i < |items|
      invariant 0 <= i <= |items|
      invariant CommentBlock(items[..i]) == Ok(block)
      invariant content == head + block
    {
      assert items[..i + 1][..i] == items[..i];
      var line := CommentLine(items[i]);
      if line.Err? {
        CommentBlockStops(items, i);
        return Err(line.error);
      }
      ConcatAssoc(head, block, line.value);
      content := content + line.value;
      block := block + line.value;
      i := i + 1;
    }
    assert items[..i] == items;
    return Ok(content);
  }

  /** The content `moderate_post` sends to the classifier. */
  method BuildContent(data: Json) returns (r: Result<string>)
    ensures r == ModerationContent(data)
  {
    var head :- ContentHead(data);
    var items :- CommentsIn(data);
    r := AppendComments(head, items);
  }

  /** `flag_post(post_id, reasons, source_path)`. */
  method FlagPostIn(ws: Workspace, id: string, reasons: Json, src: Path, env: Env) returns (r: Result<()>)
    modifies ws
    ensures (ws.State(), r) == FlagPost(old(ws.State()), id, reasons, src, env)
  {
    var d1 :- MakeDirs(ws.disk, ["flagged"]);
    ws.disk := d1;
    var d2 :- Move(ws.disk, src, FlaggedFile(id));
    ws.disk := d2;
    var db1 :- UpsertFlag(ws.db, id, FlagRow(reasons, env.now, FlaggedFile(id)), env.faults);
    ws.db := db1;
    return Ok(());
  }

  /** `moderate_post(post_id)`. */
  method ModeratePost(ws: Workspace, client: GeminiClient, id: string, env: Env) returns (r: Result<()>)
    requires client.Valid()
    modifies ws, client
    ensures client.Valid()
    ensures (ws.State(), client.State(), r)
         == ModerateOne(old(ws.State()), old(client.State()), client.keys, client.remote, id, env)
  {
    var path := Extract.CanonicalFile(id);
    if !Exists(ws.disk, path) {
      return Ok(());
    }
    var data :- ReadJson(ws.disk, path);
    r := ModerateData(ws, client, data, id, env);
  }

  /** `moderate_post(post_id)` after `json.load`. */
  method ModerateData(ws: Workspace, client: GeminiClient, data: Json, id: string, env: Env) returns (r: Result<()>)
    requires client.Valid()
    modifies ws, client
    ensures client.Valid()
    ensures (ws.State(), client.State(), r)
         == ModerateRecord(old(ws.State()), old(client.State()), client.keys, client.remote, data, id, env)
  {
    var content :- BuildContent(data);
    var prompt := ModerationPrompt(content);
    assert ModerateRecord(ws.State(), client.State(), client.keys, client.remote, data, id, env)
        == Classify(ws.State(), client.State(), client.keys, client.remote, prompt, id, env);
    r := ClassifyPost(ws, client, prompt, id, env);
  }

  /** The `try` block of `moderate_post(post_id)`. */
  method ClassifyPost(ws: Workspace, client: GeminiClient, prompt: string, id: string, env: Env) returns (r: Result<()>)
    requires client.Valid()
    modifies ws, client
    ensures client.Valid()
    ensures (ws.State(), client.State(), r)
         == Classify(old(ws.State()), old(client.State()), client.keys, client.remote, prompt, id, env)
  {
    var reply := client.GenerateJson(prompt, DefaultRetries);
    if reply.Err? {
      return Ok(());
    }
    var flag := Get(reply.value, "flag", Null);
    if flag.Err? || !Truthy(flag.value) {
      return Ok(());
    }
    var reasons := Index(reply.value, "reasons");
    if reasons.Err? {
      return Ok(());
    }
    var _ := FlagPostIn(ws, id, reasons.value, Extract.CanonicalFile(id), env);
    return Ok(());
  }

  /** The loop of `run_moderation()` over `ids`, in order. */
  method ModerateIds(ws: Workspace, client: GeminiClient, ids: seq<string>, env: Env) returns (r: Result<()>)
    requires client.Valid()
    modifies ws, client
    ensures client.Valid()
    ensures (ws.State(), client.State(), r)
         == ModerateAll(old(ws.State()), old(client.State()), client.keys, client.remote, ids, env)
  {
    ghost var w0, s0 := ws.State(), client.State();
    var i := 0;
    while i < |ids|
      invariant 0 <= i <= |ids| && client.Valid()
      invariant ModerateAll(w0, s0, client.keys, client.remote, ids[..i], env) == (ws.State(), client.State(), Ok(()))
    {
      ghost var wi, si := ws.State(), client.State();
      var step := ModeratePost(ws, client, ids[i], env);
      ModerateAllNext(w0, s0, client.keys, client.remote, ids, i, env, wi, si, ws.State(), client.State(), step);
      if step.Err? {
        return step;
      }
      i := i + 1;
    }
    assert ids[..i] == ids;
    return Ok(());
  }

  /** `run_moderation()`: `lister` answers its `os.listdir`. */
  method RunModeration(ws: Workspace, client: GeminiClient, env: Env, lister: Lister) returns (r: Result<()>)
    requires client.Valid()
    modifies ws, client
    ensures client.Valid()
    ensures (ws.State(), client.State(), r)
         == RunModerationSpec(old(ws.State()), old(client.State()), client.keys, client.remote, lister(old(ws.disk), ["canonical"]), env)
  {
    var order := lister(ws.disk, ["canonical"]);
    if !Exists(ws.disk, ["canonical"]) {
      return Ok(());
    }
    if ["canonical"] in ws.disk.files {
      return Err(OSError(["canonical"]));
    }
    r := ModerateIds(ws, client, Stems(JsonFiles(order)), env);
  }
}
