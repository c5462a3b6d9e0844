/** `render.py`: a post with both a script and a narration gets one text
    card per scene under `frames/<id>/`, an ffmpeg concat list naming the
    cards with their durations, and one encoder invocation that combines
    the list with the narration into `output/<id>.mp4`. */
module Render {
  import opened Base
  import opened Text
  import opened JsonDoc
  import opened Files
  import opened Store
  import ScriptGen
  import TtsGen

  /** `frames/<id>`. */
  function FramesDir(id: string): Path {
    ["frames", id]
  }

  /** `frames/<id>/concat.txt`. */
  function ManifestPath(id: string): Path {
    ["frames", id, "concat.txt"]
  }

  /** `frames/<id>/scene_{i:03d}.png`. */
  function ScenePath(id: string, i: nat): Path {
    ["frames", id, "scene_" + Pad3(i) + ".png"]
  }

  /** `output/<id>.mp4`. */
  function VideoPath(id: string): Path {
    ["output", id + ".mp4"]
  }

  /** The duration a scene without one is shown for. */
  const DefaultDuration := Float(3.0)

  /** The encoder invocation for a post: the concat list, the narration and
      the output video. */
  function EncoderRunFor(id: string): EncoderRun {
    EncoderRun(ManifestPath(id), TtsGen.AudioFile(id), VideoPath(id))
  }

  /** Distinct scene numbers name distinct cards, none of them the concat
      list. */
  lemma ScenePathsDistinct(id: string, i: nat, j: nat)
    ensures ScenePath(id, i) != ManifestPath(id)
    ensures ScenePath(id, i) == ScenePath(id, j) ==> i == j
  {
    var a, b := "scene_" + Pad3(i) + ".png", "scene_" + Pad3(j) + ".png";
    assert a[0] == 's';
    if a == b {
      assert |Pad3(i)| == |Pad3(j)|;
      assert Pad3(i) == a[6..|a| - 4] == b[6..|b| - 4] == Pad3(j);
      Pad3Injective(i, j);
    }
  }

  // ---------------------------------------------------------------------
  // Cards and concat lines

  /** `create_card(text, path)`: `textwrap.wrap` accepts only a string, and
      the card is saved at `path`. */
  function DrawCard(d: Disk, path: Path, text: Json, now: real): Result<Disk>
    requires path != []
  {
    if !text.Str? then Err(AttributeError)
    else WriteFile(d, path, Card(text.s), now)
  }

  /** One pass of the scene loop for scene `i`: `scene.get("text", "")` and
      `scene.get("duration", 3.0)`, the card, then the `file` and `duration`
      lines. */
  function SceneFrame(d: Disk, id: string, i: nat, scene: Json, now: real): Result<(Disk, seq<ConcatLine>)> {
    var text :- Get(scene, "text", Str(""));
    var duration :- Get(scene, "duration", DefaultDuration);
    var d1 :- DrawCard(d, ScenePath(id, i), text, now);
    Ok((d1, [FileLine(ScenePath(id, i)), DurationLine(duration)]))
  }

  /** The scene loop over `scenes`: the disk with the cards drawn so far,
      the lines written so far, and the error that ended the loop, if any. */
  function SceneFrames(d: Disk, id: string, scenes: seq<Json>, now: real): (Disk, seq<ConcatLine>, Result<()>)
    decreases |scenes|
  {
    if scenes == [] then (d, [], Ok(()))
    else
      var (d1, lines, r) := SceneFrames(d, id, scenes[..|scenes| - 1], now);
      if r.Err? then (d1, lines, r)
      else
        match SceneFrame(d1, id, |scenes| - 1, scenes[|scenes| - 1], now)
        case Err(e) => (d1, lines, Err(e))
        case Ok((d2, more)) => (d2, lines + more, Ok(()))
  }

  /** The body of the `with open(concat_list_path, "w")` block: the scene
      loop over `data.get("scenes", [])`, then, when the scenes are truthy,
      the last card once more without a duration. */
  function Storyboard(d: Disk, id: string, data: Json, now: real): (Disk, seq<ConcatLine>, Result<()>) {
    match Get(data, "scenes", Arr([]))
    case Err(e) => (d, [], Err(e))
    case Ok(scenes) =>
      match Elements(scenes)
      case Err(e) => (d, [], Err(e))
      case Ok(items) =>
        var (d1, lines, r) := SceneFrames(d, id, items, now);
        if r.Err? then (d1, lines, r)
        else if Truthy(scenes) then (d1, lines + [FileLine(ScenePath(id, |items| - 1))], Ok(()))
        else (d1, lines, Ok(()))
  }

  /** A scene the loop renders: a dict whose text, if present, is a string. */
  predicate Renderable(scene: Json) {
    scene.Obj? && (HasKey(scene.fields, "text") ==> Find(scene.fields, "text").value.Str?)
  }

  /** Reference values: the text and the duration a dict scene is rendered
      with. */
  function SceneText(scene: Json): string
    requires Renderable(scene)
  {
    match Find(scene.fields, "text")
    case Some(Str(s)) => s
    case _ => ""
  }

  function SceneDuration(scene: Json): Json
    requires Renderable(scene)
  {
    match Find(scene.fields, "duration")
    case Some(j) => j
    case None => DefaultDuration
  }

  /** The cards the loop draws for `scenes`, by path. */
  function Cards(id: string, scenes: seq<Json>, now: real): map<Path, File>
    requires forall i :: 0 <= i < |scenes| ==> Renderable(scenes[i])
    decreases |scenes|
  {
    if scenes == [] then map[]
    else
      var n := |scenes| - 1;
      Cards(id, scenes[..n], now)[ScenePath(id, n) := File(Card(SceneText(scenes[n])), now)]
  }

  /** Every scene gets its own card, `scene_{i:03d}.png`, holding the scene
      text or "" when it has none. */
  lemma {:induction false} CardsAt(id: string, scenes: seq<Json>, now: real)
    requires forall i :: 0 <= i < |scenes| ==> Renderable(scenes[i])
    ensures forall i :: 0 <= i < |scenes| ==>
              ScenePath(id, i) in Cards(id, scenes, now) && Cards(id, scenes, now)[ScenePath(id, i)] == File(Card(SceneText(scenes[i])), now)
    decreases |scenes|
  {
    if scenes != [] {
      var n := |scenes| - 1;
      var init := scenes[..n];
      CardsAt(id, init, now);
      var c := Cards(id, init, now);
      assert Cards(id, scenes, now) == c[ScenePath(id, n) := File(Card(SceneText(scenes[n])), now)];
      forall i | 0 <= i < |scenes|
        ensures ScenePath(id, i) in Cards(id, scenes, now) && Cards(id, scenes, now)[ScenePath(id, i)] == File(Card(SceneText(scenes[i])), now)
      {
        if i < n {
          ScenePathsDistinct(id, i, n);
          assert init[i] == scenes[i];
          assert ScenePath(id, i) in c && c[ScenePath(id, i)] == File(Card(SceneText(init[i])), now);
        }
      }
    }
  }

  /** There are no cards but those of the scenes. */
  lemma {:induction false} CardsOnly(id: string, scenes: seq<Json>, now: real)
    requires forall i :: 0 <= i < |scenes| ==> Renderable(scenes[i])
    ensures forall p :: p in Cards(id, scenes, now) ==> exists i :: 0 <= i < |scenes| && p == ScenePath(id, i)
    decreases |scenes|
  {
    if scenes != [] {
      var n := |scenes| - 1;
      CardsOnly(id, scenes[..n], now);
    }
  }

  /** When every scene is renderable and none of the card paths is a
      directory, the loop runs through: it adds exactly the cards, and has
      written a `file` line and a `duration` line per scene, in scene order. */
  lemma {:induction false} SceneFramesRunThrough(d: Disk, id: string, scenes: seq<Json>, now: real)
    requires IsDir(d, FramesDir(id))
    requires forall i :: 0 <= i < |scenes| ==> Renderable(scenes[i])
    requires forall i :: 0 <= i < |scenes| ==> ScenePath(id, i) !in d.dirs
    ensures var (d2, lines, r) := SceneFrames(d, id, scenes, now);
      && r.Ok? && d2 == d.(files := d.files + Cards(id, scenes, now))
      && |lines| == 2 * |scenes|
      && forall i :: 0 <= i < |scenes| ==>
           lines[2 * i] == FileLine(ScenePath(id, i)) && lines[2 * i + 1] == DurationLine(SceneDuration(scenes[i]))
    decreases |scenes|
  {
    if scenes != [] {
      var n := |scenes| - 1;
      var init, last := scenes[..n], scenes[n];
      assert forall i :: 0 <= i < n ==> init[i] == scenes[i];
      SceneFramesRunThrough(d, id, init, now);
      var (d1, lines, _) := SceneFrames(d, id, init, now);
      SceneFrameOk(d1, id, n, last, now);
      var card := File(Card(SceneText(last)), now);
      assert Cards(id, scenes, now) == Cards(id, init, now)[ScenePath(id, n) := card];
      UnionUpdate(d.files, Cards(id, init, now), ScenePath(id, n), card);
      LinesExtend(id, scenes, lines);
    }
  }

  /** A renderable scene whose card path is free gets its card and its two
      lines. */
  lemma SceneFrameOk(d: Disk, id: string, i: nat, scene: Json, now: real)
    requires IsDir(d, FramesDir(id)) && Renderable(scene) && ScenePath(id, i) !in d.dirs
    ensures SceneFrame(d, id, i, scene, now)
         == Ok((d.(files := d.files[ScenePath(id, i) := File(Card(SceneText(scene)), now)]),
                [FileLine(ScenePath(id, i)), DurationLine(SceneDuration(scene))]))
  {
    assert Parent(ScenePath(id, i)) == FramesDir(id);
    assert Get(scene, "text", Str("")) == Ok(Str(SceneText(scene)));
    assert Get(scene, "duration", DefaultDuration) == Ok(SceneDuration(scene));
  }

  lemma UnionUpdate<K, V>(a: map<K, V>, c: map<K, V>, k: K, v: V)
    ensures (a + c)[k := v] == a + c[k := v]
  {
  }

  /** The pair of lines for one more scene keeps the lines of the earlier
      scenes where they were. */
  lemma LinesExtend(id: string, scenes: seq<Json>, lines: seq<ConcatLine>)
    requires scenes != [] && forall i :: 0 <= i < |scenes| ==> Renderable(scenes[i])
    requires |lines| == 2 * (|scenes| - 1)
    requires forall i :: 0 <= i < |scenes| - 1 ==>
               lines[2 * i] == FileLine(ScenePath(id, i)) && lines[2 * i + 1] == DurationLine(SceneDuration(scenes[i]))
    ensures var n := |scenes| - 1;
      var all := lines + [FileLine(ScenePath(id, n)), DurationLine(SceneDuration(scenes[n]))];
      forall i :: 0 <= i < |scenes| ==>
        all[2 * i] == FileLine(ScenePath(id, i)) && all[2 * i + 1] == DurationLine(SceneDuration(scenes[i]))
  {
    var n := |scenes| - 1;
    var all := lines + [FileLine(ScenePath(id, n)), DurationLine(SceneDuration(scenes[n]))];
    forall i | 0 <= i < |scenes|
      ensures all[2 * i] == FileLine(ScenePath(id, i)) && all[2 * i + 1] == DurationLine(SceneDuration(scenes[i]))
    {
      if i < n {
        assert all[2 * i] == lines[2 * i] && all[2 * i + 1] == lines[2 * i + 1];
      }
    }
  }

  /** Once the loop has raised, later scenes change nothing. */
  lemma {:induction false} SceneFramesStop(d: Disk, id: string, scenes: seq<Json>, k: nat, now: real)
    requires k <= |scenes| && SceneFrames(d, id, scenes[..k], now).2.Err?
    ensures SceneFrames(d, id, scenes, now) == SceneFrames(d, id, scenes[..k], now)
    decreases |scenes| - k
  {
    if k < |scenes| {
      assert scenes[..k + 1][..k] == scenes[..k];
      SceneFramesStop(d, id, scenes, k + 1, now);
    } else {
      assert scenes[..k] == scenes;
    }
  }

  /** The concat list for `n > 0` renderable scenes has `2n + 1` lines: a
      `file`/`duration` pair per scene, then the last card once more; for
      no scenes it is empty. */
  lemma StoryboardShape(d: Disk, id: string, data: Json, scenes: seq<Json>, now: real)
    requires data.Obj? && Find(data.fields, "scenes") == Some(Arr(scenes))
    requires IsDir(d, FramesDir(id))
    requires forall i :: 0 <= i < |scenes| ==> Renderable(scenes[i])
    requires forall i :: 0 <= i < |scenes| ==> ScenePath(id, i) !in d.dirs
    ensures var (d2, lines, r) := Storyboard(d, id, data, now);
      var n := |scenes|;
      && r.Ok? && d2 == d.(files := d.files + Cards(id, scenes, now))
      && |lines| == (if n == 0 then 0 else 2 * n + 1)
      && (forall i :: 0 <= i < n ==>
            lines[2 * i] == FileLine(ScenePath(id, i)) && lines[2 * i + 1] == DurationLine(SceneDuration(scenes[i])))
      && (n > 0 ==> lines[2 * n] == FileLine(ScenePath(id, n - 1)))
  {
    assert Get(data, "scenes", Arr([])) == Ok(Arr(scenes));
    assert Elements(Arr(scenes)) == Ok(scenes);
    SceneFramesRunThrough(d, id, scenes, now);
    var lines := SceneFrames(d, id, scenes, now).1;
    forall i | 0 <= i < |scenes|
      ensures (lines + [FileLine(ScenePath(id, |scenes| - 1))])[2 * i] == lines[2 * i]
      ensures (lines + [FileLine(ScenePath(id, |scenes| - 1))])[2 * i + 1] == lines[2 * i + 1]
    {
    }
  }

  // ---------------------------------------------------------------------
  // One post

  /** The encoder step: the invocation is always recorded; a missing
      executable raises out of `generate_video`; a non-zero exit is caught;
      a zero exit leaves the video at the output path. */
  function Encode(w: World, id: string, env: Env): (r: (World, Result<()>)) {
    var w1 := w.(encoderRuns := w.encoderRuns + [EncoderRunFor(id)]);
    match env.encoder(VideoPath(id))
    case NotInstalled => (w1, Err(OSError(["ffmpeg"])))
    case Exited(code) =>
      if code != 0 then (w1, Ok(()))
      else
        match WriteFile(w1.disk, VideoPath(id), Video(ManifestPath(id), TtsGen.AudioFile(id)), env.now)
        case Err(_) => (w1, Ok(()))
        case Ok(d) => (w1.(disk := d), Ok(()))
  }

  /** From `os.makedirs(frames_dir)` to the end of the `with` block: the
      directory is made and the concat list opened, each raising on
      failure; the list is left holding the lines written before the scene
      loop ended. */
  function DrawFrames(d: Disk, id: string, data: Json, now: real): (Disk, Result<()>) {
    match MakeDirs(d, FramesDir(id))
    case Err(e) => (d, Err(e))
    case Ok(d1) =>
      match WriteFile(d1, ManifestPath(id), Manifest([]), now)
      case Err(e) => (d1, Err(e))
      case Ok(d2) =>
        var (d3, lines, r) := Storyboard(d2, id, data, now);
        (d3.(files := d3.files[ManifestPath(id) := File(Manifest(lines), now)]), r)
  }

  /** `generate_video(post_id)`: both inputs must exist, or nothing happens;
      reading the script raises out of the call on failure; the encoder runs
      only when the frames were drawn without an error. */
  function GenerateVideo(w: World, id: string, env: Env): (r: (World, Result<()>))
    ensures r.0.db == w.db
  {
    if !Exists(w.disk, ScriptGen.ScriptFile(id)) || !Exists(w.disk, TtsGen.AudioFile(id)) then (w, Ok(()))
    else
      match ReadJson(w.disk, ScriptGen.ScriptFile(id))
      case Err(e) => (w, Err(e))
      case Ok(data) =>
        var (d4, r) := DrawFrames(w.disk, id, data, env.now);
        if r.Err? then (w.(disk := d4), r) else Encode(w.(disk := d4), id, env)
  }

  /** Without the script or without the narration nothing is drawn, written
      or encoded. */
  lemma MissingInputSkipped(w: World, id: string, env: Env)
    requires !Exists(w.disk, ScriptGen.ScriptFile(id)) || !Exists(w.disk, TtsGen.AudioFile(id))
    ensures GenerateVideo(w, id, env) == (w, Ok(()))
  {
  }

  /** Making `frames/<id>` and opening the concat list both succeed when
      no file stands in the way, and make no scene path a directory. */
  lemma FramesReady(d: Disk, id: string, now: real)
    requires ["frames"] !in d.files && FramesDir(id) !in d.files && ManifestPath(id) !in d.dirs
    ensures MakeDirs(d, FramesDir(id)).Ok?
    ensures WriteFile(MakeDirs(d, FramesDir(id)).value, ManifestPath(id), Manifest([]), now).Ok?
    ensures var d2 := WriteFile(MakeDirs(d, FramesDir(id)).value, ManifestPath(id), Manifest([]), now).value;
      && IsDir(d2, FramesDir(id))
      && forall i :: ScenePath(id, i) in d2.dirs ==> ScenePath(id, i) in d.dirs
  {
    assert FramesDir(id)[..1] == ["frames"] && FramesDir(id)[..2] == FramesDir(id);
    assert Parent(ManifestPath(id)) == FramesDir(id);
  }

  /** For a renderable script, `frames/<id>` holds a card per scene and the
      concat list: for `n > 0` scenes `2n + 1` lines, a `file`/`duration`
      pair per scene in scene order and then the last card once more; for no
      scenes no lines at all. */
  lemma FramesDrawn(d: Disk, id: string, data: Json, scenes: seq<Json>, now: real)
    requires data.Obj? && Find(data.fields, "scenes") == Some(Arr(scenes))
    requires ["frames"] !in d.files && FramesDir(id) !in d.files && ManifestPath(id) !in d.dirs
    requires forall i :: 0 <= i < |scenes| ==> Renderable(scenes[i])
    requires forall i :: 0 <= i < |scenes| ==> ScenePath(id, i) !in d.dirs
    ensures var (d4, r) := DrawFrames(d, id, data, now);
      var n := |scenes|;
      && r.Ok? && ManifestPath(id) in d4.files && d4.files[ManifestPath(id)].content.Manifest?
      && (forall i :: 0 <= i < n ==> ScenePath(id, i) in d4.files && d4.files[ScenePath(id, i)] == File(Card(SceneText(scenes[i])), now))
      && var lines := d4.files[ManifestPath(id)].content.lines;
      && |lines| == (if n == 0 then 0 else 2 * n + 1)
      && (forall i :: 0 <= i < n ==>
            lines[2 * i] == FileLine(ScenePath(id, i)) && lines[2 * i + 1] == DurationLine(SceneDuration(scenes[i])))
      && (n > 0 ==> lines[2 * n] == FileLine(ScenePath(id, n - 1)))
  {
    FramesReady(d, id, now);
    var d2 := WriteFile(MakeDirs(d, FramesDir(id)).value, ManifestPath(id), Manifest([]), now).value;
    StoryboardShape(d2, id, data, scenes, now);
    CardsAt(id, scenes, now);
    forall i | 0 <= i < |scenes| ensures ScenePath(id, i) != ManifestPath(id) {
      ScenePathsDistinct(id, i, i);
    }
  }

  /** With the frames drawn, the encoder is invoked exactly once, with the
      concat list, the narration and `output/<id>.mp4`, whatever the scene
      count; only a missing encoder makes the call raise, and the encoder
      changes no file but the video. */
  lemma VideoEncoded(w: World, id: string, env: Env, data: Json)
    requires Exists(w.disk, TtsGen.AudioFile(id)) && ReadJson(w.disk, ScriptGen.ScriptFile(id)) == Ok(data)
    requires DrawFrames(w.disk, id, data, env.now).1.Ok?
    ensures var (w2, r) := GenerateVideo(w, id, env);
      var d4 := DrawFrames(w.disk, id, data, env.now).0;
      && w2.encoderRuns == w.encoderRuns + [EncoderRunFor(id)]
      && (r.Err? <==> env.encoder(VideoPath(id)).NotInstalled?)
      && w2.disk.files - {VideoPath(id)} == d4.files - {VideoPath(id)}
  {
    assert ScriptGen.ScriptFile(id) in w.disk.files;
  }

  /** A zero exit leaves the video in `output/`, replacing any earlier one;
      a non-zero exit is caught and leaves the disk as it was. */
  lemma EncoderOutcome(w: World, id: string, env: Env)
    requires IsDir(w.disk, ["output"]) && VideoPath(id) !in w.disk.dirs
    ensures var (w2, r) := Encode(w, id, env);
      && w2.encoderRuns == w.encoderRuns + [EncoderRunFor(id)]
      && (env.encoder(VideoPath(id)) == Exited(0) ==>
            r.Ok? && w2.disk.files == w.disk.files[VideoPath(id) := File(Video(ManifestPath(id), TtsGen.AudioFile(id)), env.now)])
      && (env.encoder(VideoPath(id)).Exited? && env.encoder(VideoPath(id)).code != 0 ==> r.Ok? && w2.disk == w.disk)
  {
    assert Parent(VideoPath(id)) == ["output"];
  }

  // ---------------------------------------------------------------------
  // The run

  /** `run_render()`'s loop: ids in listing order; an exception escaping
      `generate_video` ends the run. */
  function RenderAll(w: World, ids: seq<string>, env: Env): (r: (World, Result<()>))
    ensures r.0.db == w.db
    decreases |ids|
  {
    if ids == [] then (w, Ok(()))
    else
      var (w1, r1) := RenderAll(w, ids[..|ids| - 1], env);
      if r1.Err? then (w1, r1)
      else GenerateVideo(w1, ids[|ids| - 1], env)
  }

  /** `run_render()` for the listing of `scripts/` in the given order. */
  function RunRenderSpec(w: World, order: seq<string>, env: Env): (r: (World, Result<()>))
    ensures r.0.db == w.db
  {
    if !Exists(w.disk, ["scripts"]) then (w, Ok(()))
    else if ["scripts"] in w.disk.files then (w, Err(OSError(["scripts"])))
    else RenderAll(w, Stems(JsonFiles(order)), env)
  }

  lemma RenderAllStep(w: World, ids: seq<string>, i: nat, env: Env)
    requires i < |ids| && RenderAll(w, ids[..i], env).1.Ok?
    ensures RenderAll(w, ids[..i + 1], env) == GenerateVideo(RenderAll(w, ids[..i], env).0, ids[i], env)
  {
    assert ids[..i + 1][..i] == ids[..i];
  }

  lemma {:induction false} RenderStopsAtError(w: World, ids: seq<string>, k: nat, env: Env)
    requires k <= |ids| && RenderAll(w, ids[..k], env).1.Err?
    ensures RenderAll(w, ids, env) == RenderAll(w, ids[..k], env)
    decreases |ids| - k
  {
    if k < |ids| {
      assert ids[..k + 1][..k] == ids[..k];
      RenderStopsAtError(w, ids, k + 1, env);
    } else {
      assert ids[..k] == ids;
    }
  }

  /** The id at position `i` is rendered as soon as the ids before it have
      raised nothing, and a run that raised nothing reached it. */
  ghost predicate RenderedAt(w: World, ids: seq<string>, i: nat, env: Env)
    requires i < |ids|
  {
    && (RenderAll(w, ids[..i], env).1.Ok? ==>
          RenderAll(w, ids[..i + 1], env) == GenerateVideo(RenderAll(w, ids[..i], env).0, ids[i], env))
    && (RenderAll(w, ids, env).1.Ok? ==> RenderAll(w, ids[..i], env).1.Ok?)
  }

  lemma RenderAllAt(w: World, ids: seq<string>, i: nat, env: Env)
    requires i < |ids|
    ensures RenderedAt(w, ids, i, env)
  {
    if RenderAll(w, ids[..i], env).1.Ok? {
      RenderAllStep(w, ids, i, env);
    } else {
      RenderStopsAtError(w, ids, i, env);
    }
  }

  /** `run_render` calls `generate_video` for every `.json` file of
      `scripts/`: when the listing names each entry once, the stem of every
      such entry is among the ids visited, it is rendered as soon as the
      ids before it have raised nothing, and a run that raised nothing
      reached it. */
  lemma RenderCoversListing(w: World, order: seq<string>, env: Env, n: string)
    requires ["scripts"] in w.disk.dirs && ["scripts"] !in w.disk.files
    requires Enumerates(order, ListDir(w.disk, ["scripts"]))
    requires n in ListDir(w.disk, ["scripts"]) && EndsWith(n, JsonSuffix)
    ensures RunRenderSpec(w, order, env) == RenderAll(w, Stems(JsonFiles(order)), env)
    ensures var ids := Stems(JsonFiles(order));
      exists i :: 0 <= i < |ids| && ids[i] == RemoveAll(n, JsonSuffix) && RenderedAt(w, ids, i, env)
  {
    var i := JsonEntryPosition(order, ListDir(w.disk, ["scripts"]), n);
    RenderAllAt(w, Stems(JsonFiles(order)), i, env);
  }

  // ---------------------------------------------------------------------
  // The imperative stage

  /** The scene loop of `generate_video`, drawing cards on the workspace's
      disk and collecting the concat lines. */
  method RenderScenes(ws: Workspace, id: string, scenes: seq<Json>, now: real) returns (lines: seq<ConcatLine>, r: Result<()>)
    modifies ws
    ensures (ws.disk, lines, r) == SceneFrames(old(ws.disk), id, scenes, now)
    ensures ws.db == old(ws.db) && ws.encoderRuns == old(ws.encoderRuns)
  {
    ghost var d0 := ws.disk;
    lines := [];
    var i := 0;
    while i < |scenes|
      invariant 0 <= i <= |scenes|
      invariant SceneFrames(d0, id, scenes[..i], now) == (ws.disk, lines, Ok(()))
      invariant ws.db == old(ws.db) && ws.encoderRuns == old(ws.encoderRuns)
    {
      assert scenes[..i + 1][..i] == scenes[..i];
      var step := SceneFrame(ws.disk, id, i, scenes[i], now);
      if step.Err? {
        SceneFramesStop(d0, id, scenes, i + 1, now);
        return lines, Err(step.error);
      }
      ws.disk := step.value.0;
      lines := lines + step.value.1;
      i := i + 1;
    }
    assert scenes[..i] == scenes;
    return lines, Ok(());
  }

  /** The `with open(concat_list_path, "w")` block: the scene loop, then the
      repeated last card. */
  method StoryboardIn(ws: Workspace, id: string, data: Json, now: real) returns (lines: seq<ConcatLine>, r: Result<()>)
    modifies ws
    ensures (ws.disk, lines, r) == Storyboard(old(ws.disk), id, data, now)
    ensures ws.db == old(ws.db) && ws.encoderRuns == old(ws.encoderRuns)
  {
    var scenes := Get(data, "scenes", Arr([]));
    if scenes.Err? {
      return [], Err(scenes.error);
    }
    var items := Elements(scenes.value);
    if items.Err? {
      return [], Err(items.error);
    }
    lines, r := RenderScenes(ws, id, items.value, now);
    if r.Ok? && Truthy(scenes.value) {
      lines := lines + [FileLine(ScenePath(id, |items.value| - 1))];
    }
  }

  /** `os.makedirs(frames_dir)` to the end of the `with` block. */
  method DrawFramesIn(ws: Workspace, id: string, data: Json, now: real) returns (r: Result<()>)
    modifies ws
    ensures (ws.disk, r) == DrawFrames(old(ws.disk), id, data, now)
    ensures ws.db == old(ws.db) && ws.encoderRuns == old(ws.encoderRuns)
  {
    var d1 :- MakeDirs(ws.disk, FramesDir(id));
    ws.disk := d1;
    var d2 :- WriteFile(ws.disk, ManifestPath(id), Manifest([]), now);
    ws.disk := d2;
    var lines;
    lines, r := StoryboardIn(ws, id, data, now);
    ws.disk := ws.disk.(files := ws.disk.files[ManifestPath(id) := File(Manifest(lines), now)]);
  }

  /** The `subprocess.run(cmd, check=True)` call and its handler. */
  method EncodeIn(ws: Workspace, id: string, env: Env) returns (r: Result<()>)
    modifies ws
    ensures (ws.State(), r) == Encode(old(ws.State()), id, env)
  {
    ws.encoderRuns := ws.encoderRuns + [EncoderRunFor(id)];
    var exit := env.encoder(VideoPath(id));
    if exit.NotInstalled? {
      return Err(OSError(["ffmpeg"]));
    }
    if exit.code == 0 {
      var written := WriteFile(ws.disk, VideoPath(id), Video(ManifestPath(id), TtsGen.AudioFile(id)), env.now);
      if written.Ok? {
        ws.disk := written.value;
      }
    }
    return Ok(());
  }

  /** `generate_video(post_id)`. */
  method GenerateVideoPost(ws: Workspace, id: string, env: Env) returns (r: Result<()>)
    modifies ws
    ensures (ws.State(), r) == GenerateVideo(old(ws.State()), id, env)
  {
    if !Exists(ws.disk, ScriptGen.ScriptFile(id)) || !Exists(ws.disk, TtsGen.AudioFile(id)) {
      return Ok(());
    }
    var data :- ReadJson(ws.disk, ScriptGen.ScriptFile(id));
    r := DrawFramesIn(ws, id, data, env.now);
    if r.Err? {
      return r;
    }
    r := EncodeIn(ws, id, env);
  }

  /** The loop of `run_render()` over `ids`, in order. */
  method RenderIds(ws: Workspace, ids: seq<string>, env: Env) returns (r: Result<()>)
    modifies ws
    ensures (ws.State(), r) == RenderAll(old(ws.State()), ids, env)
  {
    ghost var w0 := ws.State();
    var i := 0;
    while i < |ids|
      invariant 0 <= i <= |ids|
      invariant RenderAll(w0, ids[..i], env) == (ws.State(), Ok(()))
    {
      RenderAllStep(w0, ids, i, env);
      var step := GenerateVideoPost(ws, ids[i], env);
      if step.Err? {
        RenderStopsAtError(w0, ids, i + 1, env);
        return step;
      }
      i := i + 1;
    }
    assert ids[..i] == ids;
    return Ok(());
  }

  /** `run_render()`: `lister` answers its `os.listdir`. */
  method RunRender(ws: Workspace, env: Env, lister: Lister) returns (r: Result<()>)
    modifies ws
    ensures (ws.State(), r) == RunRenderSpec(old(ws.State()), lister(old(ws.disk), ["scripts"]), env)
  {
    var order := lister(ws.disk, ["scripts"]);
    if !Exists(ws.disk, ["scripts"]) {
      return Ok(());
    }
    if ["scripts"] in ws.disk.files {
      return Err(OSError(["scripts"]));
    }
    r := RenderIds(ws, Stems(JsonFiles(order)), env);
  }
}
