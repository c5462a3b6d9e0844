/** `tts_gen.py`: the narration of a post's script is the text of its
    scenes, run together with single spaces; a non-empty narration is sent
    once to the speech model and the audio that comes back is stored as a
    mono 16-bit 24 kHz WAV file. */
module TtsGen {
  import opened Base
  import opened Text
  import opened JsonDoc
  import opened Files
  import opened Store
  import opened GenAI
  import ScriptGen

  /** The WAV parameters: mono, 2-byte samples, 24000 frames a second. */
  const Channels := 1
  const SampleWidth := 2
  const FrameRate := 24000

  /** `output/<id>.wav`. */
  function AudioFile(id: string): Path {
    ["output", id + ".wav"]
  }

  // ---------------------------------------------------------------------
  // The narration

  /** What `narration_text` holds after the loop has visited `scenes`: for
      every scene with `"text" in scene`, `scene['text']` as an f-string
      renders it, followed by one space. An error raised by `in` or by the
      subscript ends the loop and escapes. */
  function Accumulated(scenes: seq<Json>): Result<string>
    decreases |scenes|
  {
    if scenes == [] then Ok("")
    else
      var acc :- Accumulated(scenes[..|scenes| - 1]);
      var scene := scenes[|scenes| - 1];
      var has :- Contains(scene, "text");
      if !has then Ok(acc)
      else
        var t :- Index(scene, "text");
        Ok(acc + Display(t) + " ")
  }

  /** The narration of a script document: `data.get("scenes", [])`, iterated,
      accumulated and stripped. */
  function Narration(data: Json): Result<string> {
    var scenes :- Get(data, "scenes", Arr([]));
    var items :- Elements(scenes);
    var acc :- Accumulated(items);
    Ok(Strip(acc))
  }

  /** Reference definition: the texts of the dict scenes that have one, in
      scene order. */
  function SceneTexts(scenes: seq<Json>): seq<string> {
    if scenes == [] then []
    else
      var head := if scenes[0].Obj? && HasKey(scenes[0].fields, "text")
                  then [Display(Find(scenes[0].fields, "text").value)] else [];
      head + SceneTexts(scenes[1..])
  }

  /** The scenes the loop cannot get past: one that does not support `in`
      (None, a boolean or a number), and one for which `"text" in scene`
      holds but `scene['text']` is refused (a string containing "text", a
      list holding the string "text"). */
  predicate SceneFails(scene: Json) {
    || !(scene.Obj? || scene.Arr? || scene.Str?)
    || (scene.Str? && Occurs("text", scene.s))
    || (scene.Arr? && Str("text") in scene.items)
  }

  lemma {:induction false} SceneTextsAppend(xs: seq<Json>, ys: seq<Json>)
    ensures SceneTexts(xs + ys) == SceneTexts(xs) + SceneTexts(ys)
    decreases |xs|
  {
    if xs == [] {
      assert xs + ys == ys;
    } else {
      assert (xs + ys)[1..] == xs[1..] + ys;
      SceneTextsAppend(xs[1..], ys);
    }
  }

  lemma {:induction false} ConcatEachAppend(xs: seq<string>, ys: seq<string>, sep: string)
    ensures ConcatEach(xs + ys, sep) == ConcatEach(xs, sep) + ConcatEach(ys, sep)
    decreases |xs|
  {
    if xs == [] {
      assert xs + ys == ys;
    } else {
      assert (xs + ys)[1..] == xs[1..] + ys;
      ConcatEachAppend(xs[1..], ys, sep);
    }
  }

  /** When every scene is a dict, the loop runs through and has collected
      every scene text in order, each followed by a space. */
  lemma {:induction false} AccumulatedCollects(scenes: seq<Json>)
    requires forall i :: 0 <= i < |scenes| ==> scenes[i].Obj?
    ensures Accumulated(scenes) == Ok(ConcatEach(SceneTexts(scenes), " "))
    decreases |scenes|
  {
    if scenes != [] {
      var init, last := scenes[..|scenes| - 1], scenes[|scenes| - 1];
      AccumulatedCollects(init);
      assert scenes == init + [last];
      SceneTextsAppend(init, [last]);
      var lastTexts := SceneTexts([last]);
      assert [last][1..] == [];
      ConcatEachAppend(SceneTexts(init), lastTexts, " ");
      assert Contains(last, "text") == Ok(HasKey(last.fields, "text"));
      if HasKey(last.fields, "text") {
        var t := Find(last.fields, "text").value;
        assert Index(last, "text") == Ok(t);
        assert lastTexts == [Display(t)];
        var acc := ConcatEach(SceneTexts(init), " ");
        assert Accumulated(scenes) == Ok(acc + Display(t) + " ");
        assert ConcatEach(lastTexts, " ") == Display(t) + " ";
        ConcatAssoc(acc, Display(t), " ");
      } else {
        var acc := ConcatEach(SceneTexts(init), " ");
        assert Accumulated(scenes) == Ok(acc);
        assert lastTexts == [] && ConcatEach(lastTexts, " ") == "";
        assert acc + "" == acc;
      }
    }
  }

  /** The narration is the scene texts joined by single spaces and
      stripped. */
  lemma NarrationIsJoin(data: Json, scenes: seq<Json>)
    requires data.Obj? && Find(data.fields, "scenes") == Some(Arr(scenes))
    requires forall i :: 0 <= i < |scenes| ==> scenes[i].Obj?
    ensures Narration(data) == Ok(Strip(Join(SceneTexts(scenes), " ")))
  {
    assert Get(data, "scenes", Arr([])) == Ok(Arr(scenes));
    assert Elements(Arr(scenes)) == Ok(scenes);
    AccumulatedCollects(scenes);
    var texts := SceneTexts(scenes);
    StripSpaced(texts);
  }

  /** Text pieces each followed by a space strip to the same narration as
      the pieces joined by spaces. */
  lemma StripSpaced(texts: seq<string>)
    ensures Strip(ConcatEach(texts, " ")) == Strip(Join(texts, " "))
  {
    if texts != [] {
      ConcatEachIsJoin(texts, " ");
      assert AllSpace(" ");
      StripAppendSpace(Join(texts, " "), " ");
    }
  }

  /** The loop raises exactly when some scene is one it cannot get past. */
  lemma {:induction false} AccumulatedFails(scenes: seq<Json>)
    ensures Accumulated(scenes).Err? <==> exists i :: 0 <= i < |scenes| && SceneFails(scenes[i])
    decreases |scenes|
  {
    if scenes != [] {
      var init, last := scenes[..|scenes| - 1], scenes[|scenes| - 1];
      AccumulatedFails(init);
      if exists i :: 0 <= i < |init| && SceneFails(init[i]) {
        var i :| 0 <= i < |init| && SceneFails(init[i]);
        assert scenes[i] == init[i];
      } else if SceneFails(last) {
        assert SceneFails(scenes[|scenes| - 1]);
      } else {
        forall i | 0 <= i < |scenes| ensures !SceneFails(scenes[i]) {
          if i < |init| { assert scenes[i] == init[i]; }
        }
      }
    }
  }

  /** Once the loop has raised, later scenes change nothing. */
  lemma {:induction false} AccumulatedStops(scenes: seq<Json>, k: nat)
    requires k <= |scenes| && Accumulated(scenes[..k]).Err?
    ensures Accumulated(scenes) == Accumulated(scenes[..k])
    decreases |scenes| - k
  {
    if k < |scenes| {
      assert scenes[..k + 1][..k] == scenes[..k];
      AccumulatedStops(scenes, k + 1);
    } else {
      assert scenes[..k] == scenes;
    }
  }

  /** The `for scene in ...` loop of `generate_tts`. */
  method AccumulateScenes(scenes: seq<Json>) returns (r: Result<string>)
    ensures r == Accumulated(scenes)
  {
    var narration := "";
    var i := 0;
    while i < |scenes|
      invariant 0 <= i <= |scenes|
      invariant Accumulated(scenes[..i]) == Ok(narration)
    {
      assert scenes[..i + 1][..i] == scenes[..i];
      var has := Contains(scenes[i], "text");
      if has.Err? {
        AccumulatedStops(scenes, i + 1);
        return Err(has.error);
      }
      if has.value {
        var t := Index(scenes[i], "text");
        if t.Err? {
          AccumulatedStops(scenes, i + 1);
          return Err(t.error);
        }
        narration := narration + Display(t.value) + " ";
      }
      i := i + 1;
    }
    assert scenes[..i] == scenes;
    return Ok(narration);
  }

  // ---------------------------------------------------------------------
  // One post

  /** The audio reply is stored when it is truthy: makedirs `output/`, then
      the WAV file with the bytes as its frames. A failure inside the
      `try` is caught. */
  function SaveAudio(w: World, audio: Result<Option<seq<bv8>>>, id: string, env: Env): World {
    if audio.Ok? && audio.value.Some? && audio.value.value != [] then
      var wav := Wave(Channels, SampleWidth, FrameRate, audio.value.value);
      w.(disk := WriteIn(w.disk, "output", id + ".wav", wav, env.now).0)
    else w
  }

  /** The `try` block of `generate_tts`: one `generate_audio` call with the
      narration; nothing raised in it escapes. */
  function Speak(w: World, s: Session, remote: Remote, narration: string, id: string, env: Env)
    : (r: (World, Session, Result<()>))
    ensures r.1.cursor == s.cursor && r.2 == Ok(())
  {
    var (s1, audio) := Audio(remote, narration, DefaultRetries, s);
    (SaveAudio(w, audio, id, env), s1, Ok(()))
  }

  /** `generate_tts(post_id)`: no script file, or an empty narration, and
      nothing happens; reading the script and building the narration happen
      outside the `try`, so their errors escape. */
  function GenerateTts(w: World, s: Session, remote: Remote, id: string, env: Env)
    : (r: (World, Session, Result<()>))
    ensures r.1.cursor == s.cursor
  {
    var path := ScriptGen.ScriptFile(id);
    if !Exists(w.disk, path) then (w, s, Ok(()))
    else
      match ReadJson(w.disk, path)
      case Err(e) => (w, s, Err(e))
      case Ok(data) =>
        match Narration(data)
        case Err(e) => (w, s, Err(e))
        case Ok(text) => if text == "" then (w, s, Ok(())) else Speak(w, s, remote, text, id, env)
  }

  /** No script file: nothing happens and the client is not asked. */
  lemma MissingScriptSkipped(w: World, s: Session, remote: Remote, id: string, env: Env)
    requires !Exists(w.disk, ScriptGen.ScriptFile(id))
    ensures GenerateTts(w, s, remote, id, env) == (w, s, Ok(()))
  {
  }

  /** An empty narration: the client is not called and nothing is written. */
  lemma EmptyNarrationSkipped(w: World, s: Session, remote: Remote, id: string, env: Env)
    requires ReadJson(w.disk, ScriptGen.ScriptFile(id)).Ok?
    requires Narration(ReadJson(w.disk, ScriptGen.ScriptFile(id)).value) == Ok("")
    ensures GenerateTts(w, s, remote, id, env) == (w, s, Ok(()))
  {
  }

  /** A non-empty narration is sent to the speech model: every request made
      carries the preamble and exactly that narration, at least one and at
      most three are made, and the key cursor does not move. */
  lemma OneSpeechRequest(w: World, s: Session, remote: Remote, id: string, env: Env, text: string)
    requires ReadJson(w.disk, ScriptGen.ScriptFile(id)).Ok?
    requires Narration(ReadJson(w.disk, ScriptGen.ScriptFile(id)).value) == Ok(text) && text != ""
    ensures var (_, s2, r) := GenerateTts(w, s, remote, id, env);
      && r == Ok(()) && s2.cursor == s.cursor
      && 1 <= |s2.calls| - |s.calls| <= DefaultRetries
      && s2.calls[..|s.calls|] == s.calls
      && forall i :: |s.calls| <= i < |s2.calls| ==> s2.calls[i] == Call(SpeechModel, None, SpeechPreamble + text)
  {
    AudioNeverRotates(remote, text, DefaultRetries, 0, s);
    var s2 := Audio(remote, text, DefaultRetries, s).0;
    var s1 := s.(calls := s.calls + [Call(SpeechModel, None, SpeechPreamble + text)]);
    if remote.replies(|s.calls|).Failure? {
      var s1' := s1.(sleeps := s1.sleeps + [1]);
      assert |AudioAttempts(remote, SpeechPreamble + text, DefaultRetries, 1, s1').0.calls| >= |s1'.calls|;
    }
  }

  /** Truthy audio is written to `output/<id>.wav` as mono 16-bit 24 kHz
      frames, verbatim; no other file changes. */
  lemma WaveWritten(w: World, bytes: seq<bv8>, id: string, env: Env)
    requires bytes != [] && ["output"] !in w.disk.files && AudioFile(id) !in w.disk.dirs
    ensures SaveAudio(w, Ok(Some(bytes)), id, env).disk.files
         == w.disk.files[AudioFile(id) := File(Wave(1, 2, 24000, bytes), env.now)]
  {
  }

  /** Falsy audio (no audio part, or no bytes) and a failed request create
      no file and no directory. */
  lemma FalsyAudioWritesNothing(w: World, audio: Result<Option<seq<bv8>>>, id: string, env: Env)
    requires audio.Err? || audio.value.None? || audio.value.value == []
    ensures SaveAudio(w, audio, id, env) == w
  {
  }

  // ---------------------------------------------------------------------
  // The run

  /** `run_tts()`'s loop: ids in listing order; an exception escaping
      `generate_tts` ends the run. */
  function TtsAll(w: World, s: Session, remote: Remote, ids: seq<string>, env: Env)
    : (r: (World, Session, Result<()>))
    ensures r.1.cursor == s.cursor
    decreases |ids|
  {
    if ids == [] then (w, s, Ok(()))
    else
      var (w1, s1, r1) := TtsAll(w, s, remote, ids[..|ids| - 1], env);
      if r1.Err? then (w1, s1, r1)
      else GenerateTts(w1, s1, remote, ids[|ids| - 1], env)
  }

  /** `run_tts()` for the listing of `scripts/` in the given order. */
  function RunTtsSpec(w: World, s: Session, remote: Remote, order: seq<string>, env: Env)
    : (r: (World, Session, Result<()>))
    ensures r.1.cursor == s.cursor
  {
    if !Exists(w.disk, ["scripts"]) then (w, s, Ok(()))
    else if ["scripts"] in w.disk.files then (w, s, Err(OSError(["scripts"])))
    else TtsAll(w, s, remote, Stems(JsonFiles(order)), env)
  }

  lemma TtsAllStep(w: World, s: Session, remote: Remote, ids: seq<string>, i: nat, env: Env)
    requires i < |ids| && TtsAll(w, s, remote, ids[..i], env).2.Ok?
    ensures var (w1, s1, _) := TtsAll(w, s, remote, ids[..i], env);
      TtsAll(w, s, remote, ids[..i + 1], env) == GenerateTts(w1, s1, remote, ids[i], env)
  {
    assert ids[..i + 1][..i] == ids[..i];
  }

  lemma {:induction false} TtsStopsAtError(w: World, s: Session, remote: Remote, ids: seq<string>, k: nat, env: Env)
    requires k <= |ids| && TtsAll(w, s, remote, ids[..k], env).2.Err?
    ensures TtsAll(w, s, remote, ids, env) == TtsAll(w, s, remote, ids[..k], env)
    decreases |ids| - k
  {
    if k < |ids| {
      assert ids[..k + 1][..k] == ids[..k];
      TtsStopsAtError(w, s, remote, ids, k + 1, env);
    } else {
      assert ids[..k] == ids;
    }
  }

  /** The id at position `i` is voiced as soon as the ids before it have
      raised nothing, and a run that raised nothing reached it. */
  ghost predicate VoicedAt(w: World, s: Session, remote: Remote, ids: seq<string>, i: nat, env: Env)
    requires i < |ids|
  {
    var (w1, s1, r1) := TtsAll(w, s, remote, ids[..i], env);
    && (r1.Ok? ==> TtsAll(w, s, remote, ids[..i + 1], env) == GenerateTts(w1, s1, remote, ids[i], env))
    && (TtsAll(w, s, remote, ids, env).2.Ok? ==> r1.Ok?)
  }

  lemma TtsAllAt(w: World, s: Session, remote: Remote, ids: seq<string>, i: nat, env: Env)
    requires i < |ids|
    ensures VoicedAt(w, s, remote, ids, i, env)
  {
    if TtsAll(w, s, remote, ids[..i], env).2.Ok? {
      TtsAllStep(w, s, remote, ids, i, env);
    } else {
      TtsStopsAtError(w, s, remote, ids, i, env);
    }
  }

  /** `run_tts` calls `generate_tts` for every `.json` file of `scripts/`:
      when the listing names each entry once, the stem of every such entry
      is among the ids visited, it is voiced as soon as the ids before it
      have raised nothing, and a run that raised nothing reached it. */
  lemma TtsCoversListing(w: World, s: Session, remote: Remote, order: seq<string>, env: Env, n: string)
    requires ["scripts"] in w.disk.dirs && ["scripts"] !in w.disk.files
    requires Enumerates(order, ListDir(w.disk, ["scripts"]))
    requires n in ListDir(w.disk, ["scripts"]) && EndsWith(n, JsonSuffix)
    ensures RunTtsSpec(w, s, remote, order, env) == TtsAll(w, s, remote, Stems(JsonFiles(order)), env)
    ensures var ids := Stems(JsonFiles(order));
      exists i :: 0 <= i < |ids| && ids[i] == RemoveAll(n, JsonSuffix) && VoicedAt(w, s, remote, ids, i, env)
  {
    var i := JsonEntryPosition(order, ListDir(w.disk, ["scripts"]), n);
    TtsAllAt(w, s, remote, Stems(JsonFiles(order)), i, env);
  }

  // ---------------------------------------------------------------------
  // The imperative stage

  /** The narration of a script document. */
  method NarrationOf(data: Json) returns (r: Result<string>)
    ensures r == Narration(data)
  {
    var scenes :- Get(data, "scenes", Arr([]));
    var items :- Elements(scenes);
    var acc :- AccumulateScenes(items);
    return Ok(Strip(acc));
  }

  /** The `try` block of `generate_tts(post_id)`. */
  method SpeakIn(ws: Workspace, client: GeminiClient, narration: string, id: string, env: Env) returns (r: Result<()>)
    requires client.Valid()
    modifies ws, client
    ensures client.Valid()
    ensures (ws.State(), client.State(), r)
         == Speak(old(ws.State()), old(client.State()), client.remote, narration, id, env)
  {
    var audio := client.GenerateAudio(narration, DefaultRetries);
    if audio.Ok? && audio.value.Some? && audio.value.value != [] {
      var wav := Wave(Channels, SampleWidth, FrameRate, audio.value.value);
      var (d1, _) := WriteIn(ws.disk, "output", id + ".wav", wav, env.now);
      ws.disk := d1;
    }
    return Ok(());
  }

  /** `generate_tts(post_id)`. */
  method GenerateTtsPost(ws: Workspace, client: GeminiClient, id: string, env: Env) returns (r: Result<()>)
    requires client.Valid()
    modifies ws, client
    ensures client.Valid()
    ensures (ws.State(), client.State(), r)
         == GenerateTts(old(ws.State()), old(client.State()), client.remote, id, env)
  {
    var path := ScriptGen.ScriptFile(id);
    if !Exists(ws.disk, path) {
      return Ok(());
    }
    var data :- ReadJson(ws.disk, path);
    var narration :- NarrationOf(data);
    if narration == "" {
      return Ok(());
    }
    r := SpeakIn(ws, client, narration, id, env);
  }

  /** The loop of `run_tts()` over `ids`, in order. */
  method TtsIds(ws: Workspace, client: GeminiClient, ids: seq<string>, env: Env) returns (r: Result<()>)
    requires client.Valid()
    modifies ws, client
    ensures client.Valid()
    ensures (ws.State(), client.State(), r) == TtsAll(old(ws.State()), old(client.State()), client.remote, ids, env)
  {
    ghost var w0, s0 := ws.State(), client.State();
    var i := 0;
    while i < |ids|
      invariant 0 <= i <= |ids| && client.Valid()
      invariant TtsAll(w0, s0, client.remote, ids[..i], env) == (ws.State(), client.State(), Ok(()))
    {
      TtsAllStep(w0, s0, client.remote, ids, i, env);
      var step := GenerateTtsPost(ws, client, ids[i], env);
      if step.Err? {
        TtsStopsAtError(w0, s0, client.remote, ids, i + 1, env);
        return step;
      }
      i := i + 1;
    }
    assert ids[..i] == ids;
    return Ok(());
  }

  /** `run_tts()`: `lister` answers its `os.listdir`. */
  method RunTts(ws: Workspace, client: GeminiClient, env: Env, lister: Lister) returns (r: Result<()>)
    requires client.Valid()
    modifies ws, client
    ensures client.Valid()
    ensures (ws.State(), client.State(), r)
         == RunTtsSpec(old(ws.State()), old(client.State()), client.remote, lister(old(ws.disk), ["scripts"]), env)
  {
    var order := lister(ws.disk, ["scripts"]);
    if !Exists(ws.disk, ["scripts"]) {
      return Ok(());
    }
    if ["scripts"] in ws.disk.files {
      return Err(OSError(["scripts"]));
    }
    r := TtsIds(ws, client, Stems(JsonFiles(order)), env);
  }
}
