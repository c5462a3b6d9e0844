/** `app/script_gen.py`: for each canonical record, a prompt built from its
    title, author and first five comments goes to the generative client;
    a reply carrying the four required keys is stored as
    `scripts/<id>.json` and upserted into the `scripts` table. */
module ScriptGen {
  import opened Base
  import opened Text
  import opened JsonDoc
  import opened Files
  import opened Db
  import opened Store
  import opened GenAI
  import Extract

  // ---------------------------------------------------------------------
  // The prompt

  /** `SCRIPT_PROMPT` around its three placeholders, with the `{{`/`}}`
      escapes already turned into braces. Written as short literals joined,
      which the verifier handles far more cheaply than one long literal, and
      inside functions, which are only unfolded where a proof needs the
      text. */
  function ScriptTask(): string {
    "\nYou are a short-video " +
    "copywriter. Input: "
  }

  const OpLabel := ", OP: "
  const CommentsLabel := ", top_comments: "

  /** Everything after the `{comments}` placeholder. */
  function ScriptSchema(): string {
    ". \n\nOutput JSON only with " +
    "keys:\n{\n \"tone\": " +
    "\"energetic|funny|" +
    "informative|dry|sardonic\",\n " +
    "\"pacing\": " +
    "\"slow|medium|fast\",\n " +
    "\"cta\": \"max 6 words\",\n " +
    "\"caption_style\": \"one of: " +
    "bold-large / minimal / " +
    "italic\",\n " +
    "\"length_seconds\": 30,\n " +
    "\"scenes\": [\n   " +
    "{\"text\":\"caption line " +
    "here\",\"start\":0.0," +
    "\"duration\":5.0," +
    "\"visual\":\"suggestion " +
    "(image/card)\"},\n   ...\n " +
    "]\n}\nIf user left creative " +
    "options blank, decide " +
    "them automatically based " +
    "on content. Keep total " +
    "durations \U{2248} " +
    "length_seconds.\n"
  }

  /** `SCRIPT_PROMPT.format(title=..., op=..., comments=...)`; `format`
      renders each value as `str()` does. */
  function ScriptPrompt(title: Json, op: Json, comments: string): string {
    ScriptTask() + Display(title) + OpLabel + Display(op) + CommentsLabel + comments + ScriptSchema()
  }

  /** How many comments the prompt quotes. */
  const QuotedComments := 5

  /** `f"- {c['body']}"`. */
  function Bullet(c: Json): Result<string> {
    var body :- Index(c, "body");
    Ok("- " + Display(body))
  }

  /** `"\n".join([f"- {c['body']}" for c in data['comments'][:5]])`: the
      list is built in full, raising at the first comment without a body,
      before it is joined. */
  function CommentsText(data: Json): Result<string> {
    var comments :- Index(data, "comments");
    var first :- Head(comments, QuotedComments);
    var items :- Elements(first);
    var lines :- MapAll(items, Bullet);
    Ok(Join(lines, "\n"))
  }

  /** The prompt of `generate_script`: the comments are rendered first, then
      `data['title']` and `data['op']` are looked up. */
  function PromptFor(data: Json): Result<string> {
    var comments :- CommentsText(data);
    var title :- Index(data, "title");
    var op :- Index(data, "op");
    Ok(ScriptPrompt(title, op, comments))
  }

  /** For a list of comments, the prompt's comment text is one "- <body>"
      line for each of the first five, in order, joined by newlines; it can
      be built exactly when each of those five has a body. */
  lemma CommentsTextLines(data: Json)
    requires Index(data, "comments").Ok? && Index(data, "comments").value.Arr?
    ensures var all := Index(data, "comments").value.items;
      var n := if |all| < QuotedComments then |all| else QuotedComments;
      && (CommentsText(data).Ok? <==> forall i :: 0 <= i < n ==> Index(all[i], "body").Ok?)
      && (CommentsText(data).Ok? ==>
            exists lines: seq<string> ::
              && CommentsText(data).value == Join(lines, "\n")
              && |lines| == n
              && forall i :: 0 <= i < n ==> lines[i] == "- " + Display(Index(all[i], "body").value))
  {
    var all := Index(data, "comments").value.items;
    var n := if |all| < QuotedComments then |all| else QuotedComments;
    var items := Head(Index(data, "comments").value, QuotedComments).value.items;
    assert items == all[..n];
    assert Elements(Arr(items)) == Ok(items);
    assert forall i :: 0 <= i < n ==> items[i] == all[i];
    if CommentsText(data).Ok? {
      var lines := MapAll(items, Bullet).value;
      assert CommentsText(data).value == Join(lines, "\n");
    }
  }

  /** A record without `title` or `op`, or whose comments cannot be rendered,
      has no prompt. */
  lemma PromptNeedsFields(data: Json)
    ensures PromptFor(data).Ok? <==> CommentsText(data).Ok? && Index(data, "title").Ok? && Index(data, "op").Ok?
  {
  }

  // ---------------------------------------------------------------------
  // Validation and storage

  const RequiredKeys := ["tone", "pacing", "cta", "scenes"]

  /** `all(key in script_json for key in keys)`: stops at the first missing
      key; `in` on a value that is not a container raises. */
  function HasAllKeys(reply: Json, keys: seq<string>): (r: Result<bool>)
    ensures r.Err? <==> keys != [] && !(reply.Obj? || reply.Arr? || reply.Str?)
    decreases |keys|
  {
    if keys == [] then Ok(true)
    else
      var present :- Contains(reply, keys[0]);
      if !present then Ok(false) else HasAllKeys(reply, keys[1..])
  }

  /** For a dict, validation is key presence only: the values under the keys
      (an empty `scenes`, an unlisted tone) are never looked at. */
  lemma {:induction false} DictValidation(reply: Json, keys: seq<string>)
    requires reply.Obj?
    ensures HasAllKeys(reply, keys) == Ok(forall i :: 0 <= i < |keys| ==> HasKey(reply.fields, keys[i]))
    decreases |keys|
  {
    if keys != [] {
      DictValidation(reply, keys[1..]);
      assert forall i :: 1 <= i < |keys| ==> keys[i] == keys[1..][i - 1];
    }
  }

  /** The `scripts` row of `save_script`: the style columns come from the
      reply, with `neutral`, `medium`, an empty string and `minimal` for
      absent keys; `.get` on a reply that is not a dict raises. */
  function ScriptRowOf(reply: Json, now: real): (r: Result<ScriptRow>)
    ensures r.Ok? <==> reply.Obj?
  {
    if !reply.Obj? then Err(AttributeError)
    else
      Ok(ScriptRow(Get(reply, "tone", Str("neutral")).value,
                   Get(reply, "pacing", Str("medium")).value,
                   Get(reply, "cta", Str("")).value,
                   Get(reply, "caption_style", Str("minimal")).value,
                   now, reply))
  }

  /** Every column of the row: a style key the reply has is stored as
      replied, an absent one as its default; `generated_at` is the time of
      the write and `script_json` the whole reply. */
  lemma ScriptRowColumns(reply: Json, now: real)
    requires reply.Obj?
    ensures var row, fs := ScriptRowOf(reply, now).value, reply.fields;
      && row.tone == (if HasKey(fs, "tone") then Find(fs, "tone").value else Str("neutral"))
      && row.pacing == (if HasKey(fs, "pacing") then Find(fs, "pacing").value else Str("medium"))
      && row.cta == (if HasKey(fs, "cta") then Find(fs, "cta").value else Str(""))
      && row.captionStyle == (if HasKey(fs, "caption_style") then Find(fs, "caption_style").value else Str("minimal"))
      && row.generatedAt == now && row.scriptJson == reply
  {
  }

  function ScriptFile(id: string): Path {
    ["scripts", id + JsonSuffix]
  }

  /** `save_script(post_id, script_data)`: create `scripts/`, write the reply
      over `scripts/<id>.json`, then `INSERT OR REPLACE` its row. A step that
      raises leaves the earlier ones in place. */
  function SaveScript(w: World, id: string, reply: Json, env: Env): (r: (World, Result<()>))
    ensures r.0.encoderRuns == w.encoderRuns
    ensures r.0.db == w.db || r.1.Ok?
    ensures r.1.Ok? ==> && ScriptRowOf(reply, env.now).Ok?
                        && r.0.db == w.db.(scripts := w.db.scripts[id := ScriptRowOf(reply, env.now).value])
    ensures r.0.disk.files - {ScriptFile(id)} == w.disk.files - {ScriptFile(id)}
  {
    var (d1, written) := WriteIn(w.disk, "scripts", id + JsonSuffix, Doc(reply), env.now);
    var w1 := w.(disk := d1);
    if written.Err? then (w1, Err(written.error))
    else
      match ScriptRowOf(reply, env.now)
      case Err(e) => (w1, Err(e))
      case Ok(row) =>
        match UpsertScript(w.db, id, row, env.faults)
        case Err(e) => (w1, Err(e))
        case Ok(db1) => (w1.(db := db1), Ok(()))
  }

  /** The handler around the client call: a reply that fails validation, or
      anything raised while validating or saving, is caught. */
  function StoreReply(w: World, reply: Result<Json>, id: string, env: Env): World {
    match reply
    case Err(_) => w
    case Ok(j) =>
      match HasAllKeys(j, RequiredKeys)
      case Err(_) => w
      case Ok(valid) => if valid then SaveScript(w, id, j, env).0 else w
  }

  /** `generate_script(post_id)` with the client's keys and replies: a
      missing canonical file means nothing happens; reading it and building
      the prompt happen outside the `try`, so their errors escape. */
  function GenerateScript(w: World, s: Session, keys: seq<string>, remote: Remote, id: string, env: Env)
    : (r: (World, Session, Result<()>))
    requires CursorOk(keys, s.cursor)
    ensures CursorOk(keys, r.1.cursor)
  {
    var path := Extract.CanonicalFile(id);
    if !Exists(w.disk, path) then (w, s, Ok(()))
    else
      match ReadJson(w.disk, path)
      case Err(e) => (w, s, Err(e))
      case Ok(data) => ScriptFromRecord(w, s, keys, remote, data, id, env)
  }

  /** `generate_script` once the record is read. */
  function ScriptFromRecord(w: World, s: Session, keys: seq<string>, remote: Remote, data: Json, id: string, env: Env)
    : (r: (World, Session, Result<()>))
    requires CursorOk(keys, s.cursor)
    ensures CursorOk(keys, r.1.cursor)
  {
    match PromptFor(data)
    case Err(e) => (w, s, Err(e))
    case Ok(prompt) => AskForScript(w, s, keys, remote, prompt, id, env)
  }

  /** The `try` block of `generate_script`: nothing raised in it escapes. */
  function AskForScript(w: World, s: Session, keys: seq<string>, remote: Remote, prompt: string, id: string, env: Env)
    : (r: (World, Session, Result<()>))
    requires CursorOk(keys, s.cursor)
    ensures CursorOk(keys, r.1.cursor) && r.2 == Ok(())
  {
    var (s1, reply) := JsonReply(keys, remote, prompt, DefaultRetries, s);
    (StoreReply(w, reply, id, env), s1, Ok(()))
  }

  // ---------------------------------------------------------------------
  // Properties of one post

  /** No canonical file: nothing happens and the client is not asked. */
  lemma MissingRecordSkipped(w: World, s: Session, keys: seq<string>, remote: Remote, id: string, env: Env)
    requires CursorOk(keys, s.cursor) && !Exists(w.disk, Extract.CanonicalFile(id))
    ensures GenerateScript(w, s, keys, remote, id, env) == (w, s, Ok(()))
  {
  }

  /** A record the prompt cannot be built from raises out of
      `generate_script` before the client is asked or anything is written. */
  lemma PromptFailureEscapes(w: World, s: Session, keys: seq<string>, remote: Remote, id: string, env: Env)
    requires CursorOk(keys, s.cursor)
    requires ReadJson(w.disk, Extract.CanonicalFile(id)).Ok?
    requires PromptFor(ReadJson(w.disk, Extract.CanonicalFile(id)).value).Err?
    ensures var (w2, s2, r) := GenerateScript(w, s, keys, remote, id, env);
      w2 == w && s2 == s && r == Err(PromptFor(ReadJson(w.disk, Extract.CanonicalFile(id)).value).error)
  {
  }

  /** A reply lacking any required key (or not a container at all) writes
      no script file and no row. */
  lemma InvalidReplyStoresNothing(w: World, j: Json, id: string, env: Env)
    requires HasAllKeys(j, RequiredKeys) != Ok(true)
    ensures StoreReply(w, Ok(j), id, env) == w
  {
  }

  /** A dict reply with all four keys, whose style values sqlite can bind,
      is written to `scripts/<id>.json` in full and upserted as the post's
      one row. */
  lemma ValidReplyStored(w: World, j: Json, id: string, env: Env)
    requires j.Obj? && forall i :: 0 <= i < |RequiredKeys| ==> HasKey(j.fields, RequiredKeys[i])
    requires ["scripts"] !in w.disk.files && ScriptFile(id) !in w.disk.dirs
    requires (Scripts, id) !in env.faults
    requires var row := ScriptRowOf(j, env.now).value;
      Bindable(row.tone) && Bindable(row.pacing) && Bindable(row.cta) && Bindable(row.captionStyle)
    ensures var w2 := StoreReply(w, Ok(j), id, env);
      && w2.disk.files == w.disk.files[ScriptFile(id) := File(Doc(j), env.now)]
      && w2.db == w.db.(scripts := w.db.scripts[id := ScriptRowOf(j, env.now).value])
  {
    DictValidation(j, RequiredKeys);
  }

  /** A dict reply with all four keys but a style value sqlite cannot bind
      (a list or a dict) is still written in full; the upsert then raises
      inside the `try`, so the tables stay as they were. */
  lemma UnbindableReplyKeepsFile(w: World, j: Json, id: string, env: Env)
    requires j.Obj? && forall i :: 0 <= i < |RequiredKeys| ==> HasKey(j.fields, RequiredKeys[i])
    requires ["scripts"] !in w.disk.files && ScriptFile(id) !in w.disk.dirs
    requires var row := ScriptRowOf(j, env.now).value;
      !(Bindable(row.tone) && Bindable(row.pacing) && Bindable(row.cta) && Bindable(row.captionStyle))
    ensures var w2 := StoreReply(w, Ok(j), id, env);
      && w2.disk.files == w.disk.files[ScriptFile(id) := File(Doc(j), env.now)]
      && w2.db == w.db
  {
    DictValidation(j, RequiredKeys);
  }

  /** A failing row write after a successful file write leaves the file in
      place and the tables as they were. */
  lemma RowFailureKeepsFile(w: World, j: Json, id: string, env: Env)
    requires j.Obj? && ["scripts"] !in w.disk.files && ScriptFile(id) !in w.disk.dirs
    requires (Scripts, id) in env.faults
    ensures var (w2, r) := SaveScript(w, id, j, env);
      && r == Err(DbError(id)) && w2.db == w.db
      && w2.disk.files == w.disk.files[ScriptFile(id) := File(Doc(j), env.now)]
  {
  }

  /** The latest generation wins: saving a second reply replaces the file
      and the row the first one left. */
  lemma LatestWins(w: World, id: string, j1: Json, j2: Json, e1: Env, e2: Env)
    requires SaveScript(SaveScript(w, id, j1, e1).0, id, j2, e2).1.Ok?
    ensures var w2 := SaveScript(SaveScript(w, id, j1, e1).0, id, j2, e2).0;
      && w2.disk.files[ScriptFile(id)] == File(Doc(j2), e2.now)
      && w2.db.scripts[id] == ScriptRowOf(j2, e2.now).value
  {
  }

  /** Nothing is skipped for a post that already has a script: what
      `generate_script` asks the client does not depend on the `scripts`
      table or on an existing script file. */
  lemma NoSkipForExistingScript(w: World, s: Session, keys: seq<string>, remote: Remote, id: string, env: Env,
                                scripts: map<string, ScriptRow>, previous: File)
    requires CursorOk(keys, s.cursor)
    ensures var w' := w.(db := w.db.(scripts := scripts), disk := w.disk.(files := w.disk.files[ScriptFile(id) := previous]));
      GenerateScript(w', s, keys, remote, id, env).1 == GenerateScript(w, s, keys, remote, id, env).1
  {
    var w' := w.(db := w.db.(scripts := scripts), disk := w.disk.(files := w.disk.files[ScriptFile(id) := previous]));
    var path := Extract.CanonicalFile(id);
    assert path != ScriptFile(id);
    assert Exists(w'.disk, path) == Exists(w.disk, path);
    assert ReadJson(w'.disk, path) == ReadJson(w.disk, path);
  }

  // ---------------------------------------------------------------------
  // The run

  /** `run_script_gen()`'s loop: ids in listing order, every one regenerated;
      an exception escaping `generate_script` ends the run. */
  function ScriptAll(w: World, s: Session, keys: seq<string>, remote: Remote, ids: seq<string>, env: Env)
    : (r: (World, Session, Result<()>))
    requires CursorOk(keys, s.cursor)
    ensures CursorOk(keys, r.1.cursor)
    decreases |ids|
  {
    if ids == [] then (w, s, Ok(()))
    else
      var (w1, s1, r1) := ScriptAll(w, s, keys, remote, ids[..|ids| - 1], env);
      if r1.Err? then (w1, s1, r1)
      else GenerateScript(w1, s1, keys, remote, ids[|ids| - 1], env)
  }

  /** `run_script_gen()` for the listing of `canonical/` in the given order. */
  function RunScriptGenSpec(w: World, s: Session, keys: seq<string>, remote: Remote, order: seq<string>, env: Env)
    : (r: (World, Session, Result<()>))
    requires CursorOk(keys, s.cursor)
    ensures CursorOk(keys, r.1.cursor)
  {
    if !Exists(w.disk, ["canonical"]) then (w, s, Ok(()))
    else if ["canonical"] in w.disk.files then (w, s, Err(OSError(["canonical"])))
    else ScriptAll(w, s, keys, remote, Stems(JsonFiles(order)), env)
  }

  /** One more id: visited only while nothing has escaped. */
  lemma ScriptAllStep(w: World, s: Session, keys: seq<string>, remote: Remote, ids: seq<string>, i: nat, env: Env)
    requires CursorOk(keys, s.cursor) && i < |ids|
    requires ScriptAll(w, s, keys, remote, ids[..i], env).2.Ok?
    ensures var (w1, s1, _) := ScriptAll(w, s, keys, remote, ids[..i], env);
      ScriptAll(w, s, keys, remote, ids[..i + 1], env) == GenerateScript(w1, s1, keys, remote, ids[i], env)
  {
    assert ids[..i + 1][..i] == ids[..i];
  }

  /** After an escaping exception the remaining ids are not visited. */
  lemma {:induction false} ScriptStopsAtError(w: World, s: Session, keys: seq<string>, remote: Remote,
                                              ids: seq<string>, k: nat, env: Env)
    requires CursorOk(keys, s.cursor) && k <= |ids|
    requires ScriptAll(w, s, keys, remote, ids[..k], env).2.Err?
    ensures ScriptAll(w, s, keys, remote, ids, env) == ScriptAll(w, s, keys, remote, ids[..k], env)
    decreases |ids| - k
  {
    if k < |ids| {
      assert ids[..k + 1][..k] == ids[..k];
      ScriptStopsAtError(w, s, keys, remote, ids, k + 1, env);
    } else {
      assert ids[..k] == ids;
    }
  }

  /** The id at position `i` gets its script as soon as the ids before it
      have raised nothing, and a run that raised nothing reached it. */
  ghost predicate ScriptedAt(w: World, s: Session, keys: seq<string>, remote: Remote, ids: seq<string>, i: nat, env: Env)
    requires CursorOk(keys, s.cursor) && i < |ids|
  {
    var (w1, s1, r1) := ScriptAll(w, s, keys, remote, ids[..i], env);
    && (r1.Ok? ==> ScriptAll(w, s, keys, remote, ids[..i + 1], env) == GenerateScript(w1, s1, keys, remote, ids[i], env))
    && (ScriptAll(w, s, keys, remote, ids, env).2.Ok? ==> r1.Ok?)
  }

  lemma ScriptAllAt(w: World, s: Session, keys: seq<string>, remote: Remote, ids: seq<string>, i: nat, env: Env)
    requires CursorOk(keys, s.cursor) && i < |ids|
    ensures ScriptedAt(w, s, keys, remote, ids, i, env)
  {
    if ScriptAll(w, s, keys, remote, ids[..i], env).2.Ok? {
      ScriptAllStep(w, s, keys, remote, ids, i, env);
    } else {
      ScriptStopsAtError(w, s, keys, remote, ids, i, env);
    }
  }

  /** `run_script_gen` calls `generate_script` for every `.json` file of
      `canonical/`: when the listing names each entry once, the stem of
      every such entry is among the ids visited, it is handled as soon as
      the ids before it have raised nothing, and a run that raised nothing
      reached it. */
  lemma ScriptGenCoversListing(w: World, s: Session, keys: seq<string>, remote: Remote, order: seq<string>,
                               env: Env, n: string)
    requires CursorOk(keys, s.cursor)
    requires ["canonical"] in w.disk.dirs && ["canonical"] !in w.disk.files
    requires Enumerates(order, ListDir(w.disk, ["canonical"]))
    requires n in ListDir(w.disk, ["canonical"]) && EndsWith(n, JsonSuffix)
    ensures RunScriptGenSpec(w, s, keys, remote, order, env) == ScriptAll(w, s, keys, remote, Stems(JsonFiles(order)), env)
    ensures var ids := Stems(JsonFiles(order));
      exists i :: 0 <= i < |ids| && ids[i] == RemoveAll(n, JsonSuffix) && ScriptedAt(w, s, keys, remote, ids, i, env)
  {
    var i := JsonEntryPosition(order, ListDir(w.disk, ["canonical"]), n);
    ScriptAllAt(w, s, keys, remote, Stems(JsonFiles(order)), i, env);
  }

  // ---------------------------------------------------------------------
  // The imperative stage

  /** `save_script(post_id, script_data)`. */
  method SaveScriptIn(ws: Workspace, id: string, reply: Json, env: Env) returns (r: Result<()>)
    modifies ws
    ensures (ws.State(), r) == SaveScript(old(ws.State()), id, reply, env)
  {
    var (d1, written) := WriteIn(ws.disk, "scripts", id + JsonSuffix, Doc(reply), env.now);
    ws.disk := d1;
    if written.Err? {
      return Err(written.error);
    }
    var row :- ScriptRowOf(reply, env.now);
    var db1 :- UpsertScript(ws.db, id, row, env.faults);
    ws.db := db1;
    return Ok(());
  }

  /** The `try` block of `generate_script(post_id)`. */
  method AskForScriptIn(ws: Workspace, client: GeminiClient, prompt: string, id: string, env: Env) returns (r: Result<()>)
    requires client.Valid()
    modifies ws, client
    ensures client.Valid()
    ensures (ws.State(), client.State(), r)
         == AskForScript(old(ws.State()), old(client.State()), client.keys, client.remote, prompt, id, env)
  {
    var reply := client.GenerateJson(prompt, DefaultRetries);
    if reply.Err? {
      return Ok(());
    }
    var valid := HasAllKeys(reply.value, RequiredKeys);
    if valid.Err? || !valid.value {
      return Ok(());
    }
    var _ := SaveScriptIn(ws, id, reply.value, env);
    return Ok(());
  }

  /** `generate_script(post_id)`. */
  method GenerateScriptPost(ws: Workspace, client: GeminiClient, id: string, env: Env) returns (r: Result<()>)
    requires client.Valid()
    modifies ws, client
    ensures client.Valid()
    ensures (ws.State(), client.State(), r)
         == GenerateScript(old(ws.State()), old(client.State()), client.keys, client.remote, id, env)
  {
    var path := Extract.CanonicalFile(id);
    if !Exists(ws.disk, path) {
      return Ok(());
    }
    var data :- ReadJson(ws.disk, path);
    var prompt :- PromptFor(data);
    r := AskForScriptIn(ws, client, prompt, id, env);
  }

  /** The loop of `run_script_gen()` over `ids`, in order. */
  method ScriptIds(ws: Workspace, client: GeminiClient, ids: seq<string>, env: Env) returns (r: Result<()>)
    requires client.Valid()
    modifies ws, client
    ensures client.Valid()
    ensures (ws.State(), client.State(), r)
         == ScriptAll(old(ws.State()), old(client.State()), client.keys, client.remote, ids, env)
  {
    ghost var w0, s0 := ws.State(), client.State();
    var i := 0;
    while i < |ids|
      invariant 0 <= i <= |ids| && client.Valid()
      invariant ScriptAll(w0, s0, client.keys, client.remote, ids[..i], env) == (ws.State(), client.State(), Ok(()))
    {
      ScriptAllStep(w0, s0, client.keys, client.remote, ids, i, env);
      var step := GenerateScriptPost(ws, client, ids[i], env);
      if step.Err? {
        ScriptStopsAtError(w0, s0, client.keys, client.remote, ids, i + 1, env);
        return step;
      }
      i := i + 1;
    }
    assert ids[..i] == ids;
    return Ok(());
  }

  /** `run_script_gen()`: `lister` answers its `os.listdir`. */
  method RunScriptGen(ws: Workspace, client: GeminiClient, env: Env, lister: Lister) returns (r: Result<()>)
    requires client.Valid()
    modifies ws, client
    ensures client.Valid()
    ensures (ws.State(), client.State(), r)
         == RunScriptGenSpec(old(ws.State()), old(client.State()), client.keys, client.remote, lister(old(ws.disk), ["canonical"]), env)
  {
    var order := lister(ws.disk, ["canonical"]);
    if !Exists(ws.disk, ["canonical"]) {
      return Ok(());
    }
    if ["canonical"] in ws.disk.files {
      return Err(OSError(["canonical"]));
    }
    r := ScriptIds(ws, client, Stems(JsonFiles(order)), env);
  }
}
