/** `worker.py`: one pipeline run calls the seven stages in a fixed order
    inside one `try`; the first exception that escapes a stage is logged and
    the stages after it are skipped, and the run itself never raises. */
module Worker {
  import opened Base
  import opened Files
  import opened Store
  import opened GenAI
  import Harvest
  import Extract
  import Moderate
  import ScriptGen
  import TtsGen
  import Render

  /** The stages of a run, one per stage entry point. */
  datatype Stage = Harvesting | Scoring | Extracting | Moderating | Scripting | Speaking | Rendering

  /** `harvest`, `run_scoring`, `run_extraction`, `run_moderation`,
      `run_script_gen`, `run_tts`, `run_render`. */
  const Stages: seq<Stage> := [Harvesting, Scoring, Extracting, Moderating, Scripting, Speaking, Rendering]

  /** What a run sees besides the workspace and the shared client: the
      Reddit service, the scoring stage (its arithmetic is not part of this
      model, only that it changes the world and may raise), the redaction
      passes, the order in which `os.listdir` answers, and the
      environment. */
  datatype Inputs = Inputs(
    reddit: Harvest.Reddit,
    scoring: World -> (World, Result<()>),
    rx: Extract.Redactors,
    lister: Lister,
    env: Env)

  /** The stages `stages` in order from `x`, stopping at the first that
      raises: the final state, the stages called, and the error logged. The
      stages called are a prefix of `stages`; all of them when none raised,
      and at least one when one did. */
  function RunStages<S>(stages: seq<Stage>, x: S, run: (Stage, S) -> (S, Result<()>))
    : (r: (S, seq<Stage>, Option<Exc>))
    ensures |r.1| <= |stages| && r.1 == stages[..|r.1|]
    ensures r.2.None? ==> r.1 == stages
    ensures r.2.Some? ==> r.1 != []
    decreases |stages|
  {
    if stages == [] then (x, [], None)
    else
      var (x1, ran, failure) := RunStages(stages[..|stages| - 1], x, run);
      if failure.Some? then (x1, ran, failure)
      else
        var (x2, res) := run(stages[|stages| - 1], x1);
        (x2, stages, if res.Err? then Some(res.error) else None)
  }

  /** The next stage runs exactly when none before it raised. */
  lemma RunStagesStep<S>(stages: seq<Stage>, k: nat, x: S, run: (Stage, S) -> (S, Result<()>))
    requires k < |stages| && RunStages(stages[..k], x, run).2.None?
    ensures var (x2, res) := run(stages[k], RunStages(stages[..k], x, run).0);
      RunStages(stages[..k + 1], x, run) == (x2, stages[..k + 1], if res.Err? then Some(res.error) else None)
  {
    assert stages[..k + 1][..k] == stages[..k];
  }

  /** Once a stage has raised, no later stage runs and nothing else
      changes. */
  lemma {:induction false} RunStagesStopsAtError<S>(stages: seq<Stage>, k: nat, x: S, run: (Stage, S) -> (S, Result<()>))
    requires k <= |stages| && RunStages(stages[..k], x, run).2.Some?
    ensures RunStages(stages, x, run) == RunStages(stages[..k], x, run)
    decreases |stages| - k
  {
    if k < |stages| {
      assert stages[..k + 1][..k] == stages[..k];
      RunStagesStopsAtError(stages, k + 1, x, run);
    } else {
      assert stages[..k] == stages;
    }
  }

  /** A run that logs nothing has called every stage exactly once, in the
      fixed order; a run that logs an error has called a non-empty prefix of
      that order; no stage is called twice. */
  lemma PipelineOrder<S>(x: S, run: (Stage, S) -> (S, Result<()>))
    ensures var (_, ran, failure) := RunStages(Stages, x, run);
      && (failure.None? ==> ran == [Harvesting, Scoring, Extracting, Moderating, Scripting, Speaking, Rendering])
      && (failure.Some? ==> 1 <= |ran| && ran == Stages[..|ran|])
      && (forall i, j :: 0 <= i < j < |ran| ==> ran[i] != ran[j])
  {
    var ran := RunStages(Stages, x, run).1;
    forall i, j | 0 <= i < j < |ran| ensures ran[i] != ran[j] {
      assert ran[i] == Stages[i] && ran[j] == Stages[j];
    }
  }

  /** When the first `k` stages return and stage `k` raises `e`, the run
      ends there: exactly the first `k + 1` stages were called, `e` is
      logged, and the state is the one stage `k` left. */
  lemma PipelineAborts<S>(k: nat, x: S, run: (Stage, S) -> (S, Result<()>))
    requires k < |Stages| && RunStages(Stages[..k], x, run).2.None?
    requires run(Stages[k], RunStages(Stages[..k], x, run).0).1.Err?
    ensures var (x2, res) := run(Stages[k], RunStages(Stages[..k], x, run).0);
      RunStages(Stages, x, run) == (x2, Stages[..k + 1], Some(res.error))
  {
    RunStagesStep(Stages, k, x, run);
    RunStagesStopsAtError(Stages, k + 1, x, run);
  }

  // ---------------------------------------------------------------------
  // The stages of this repository

  /** Step 1, `harvest()` with its default subreddits and limit. */
  function HarvestStage(x: (World, Session), inp: Inputs): ((World, Session), Result<()>) {
    var (w, res) := Harvest.HarvestSubs(x.0, inp.reddit, Harvest.DefaultSubreddits, Harvest.DefaultLimit, inp.env);
    ((w, x.1), res)
  }

  /** Step 2, `run_scoring()`. */
  function ScoringStage(x: (World, Session), inp: Inputs): ((World, Session), Result<()>) {
    var (w, res) := inp.scoring(x.0);
    ((w, x.1), res)
  }

  /** Step 3, `run_extraction()`. */
  function ExtractionStage(x: (World, Session), inp: Inputs): ((World, Session), Result<()>) {
    var (d, res) := Extract.RunExtractionSpec(x.0.disk, inp.lister(x.0.disk, ["raw"]), inp.rx, inp.env.now);
    ((x.0.(disk := d), x.1), res)
  }

  /** Step 4, `run_moderation()`. A `GeminiClient` keeps its cursor in
      range, so the guard on this stage and the next only makes them
      total. */
  function ModerationStage(x: (World, Session), keys: seq<string>, remote: Remote, inp: Inputs)
    : ((World, Session), Result<()>)
  {
    if CursorOk(keys, x.1.cursor) then
      var (w, s, res) := Moderate.RunModerationSpec(x.0, x.1, keys, remote, inp.lister(x.0.disk, ["canonical"]), inp.env);
      ((w, s), res)
    else (x, Ok(()))
  }

  /** Step 5, `run_script_gen()`. */
  function ScriptStage(x: (World, Session), keys: seq<string>, remote: Remote, inp: Inputs)
    : ((World, Session), Result<()>)
  {
    if CursorOk(keys, x.1.cursor) then
      var (w, s, res) := ScriptGen.RunScriptGenSpec(x.0, x.1, keys, remote, inp.lister(x.0.disk, ["canonical"]), inp.env);
      ((w, s), res)
    else (x, Ok(()))
  }

  /** Step 6, `run_tts()`. */
  function SpeechStage(x: (World, Session), remote: Remote, inp: Inputs): ((World, Session), Result<()>) {
    var (w, s, res) := TtsGen.RunTtsSpec(x.0, x.1, remote, inp.lister(x.0.disk, ["scripts"]), inp.env);
    ((w, s), res)
  }

  /** Step 7, `run_render()`. */
  function RenderStage(x: (World, Session), inp: Inputs): ((World, Session), Result<()>) {
    var (w, res) := Render.RunRenderSpec(x.0, inp.lister(x.0.disk, ["scripts"]), inp.env);
    ((w, x.1), res)
  }

  /** The stages of this repository, for `RunStages`: each stage as a step
      on the workspace and the shared client's session, giving the new
      world and session and whether an exception escaped it. */
  function StageRun(keys: seq<string>, remote: Remote, inp: Inputs)
    : (Stage, (World, Session)) -> ((World, Session), Result<()>)
  {
    (st: Stage, x: (World, Session)) =>
      match st
      case Harvesting => HarvestStage(x, inp)
      case Scoring => ScoringStage(x, inp)
      case Extracting => ExtractionStage(x, inp)
      case Moderating => ModerationStage(x, keys, remote, inp)
      case Scripting => ScriptStage(x, keys, remote, inp)
      case Speaking => SpeechStage(x, remote, inp)
      case Rendering => RenderStage(x, inp)
  }

  /** `run_pipeline()`: the new world and session, the stages called, and
      the error logged. */
  function Pipeline(w: World, s: Session, keys: seq<string>, remote: Remote, inp: Inputs)
    : (World, Session, seq<Stage>, Option<Exc>)
  {
    var (x, ran, failure) := RunStages(Stages, (w, s), StageRun(keys, remote, inp));
    (x.0, x.1, ran, failure)
  }

  /** The error a stage's outcome logs. */
  function Logged(res: Result<()>): Option<Exc> {
    if res.Err? then Some(res.error) else None
  }

  /** The first `k` stages of a run from `x0` have been called, leaving `x`
      and logging `logged`. */
  ghost predicate Reached<S>(k: nat, x0: S, x: S, run: (Stage, S) -> (S, Result<()>), logged: Option<Exc>) {
    k <= |Stages| && RunStages(Stages[..k], x0, run) == (x, Stages[..k], logged)
  }

  // Each step below is proved against any `run` that agrees with the
  // stage's own definition at the state the step starts from, so that its
  // proof looks at that stage alone.

  /** Step 1: `harvest()`. */
  method HarvestStep(ws: Workspace, client: GeminiClient, inp: Inputs,
                     ghost run: (Stage, (World, Session)) -> ((World, Session), Result<()>))
    returns (res: Result<()>)
    requires run(Harvesting, (ws.State(), client.State())) == HarvestStage((ws.State(), client.State()), inp)
    modifies ws
    ensures Reached(1, (old(ws.State()), client.State()), (ws.State(), client.State()), run, Logged(res))
  {
    ghost var y := (ws.State(), client.State());
    res := Harvest.RunHarvest(ws, inp.reddit, Harvest.DefaultSubreddits, Harvest.DefaultLimit, inp.env);
    assert Stages[..0] == [];
    RunStagesStep(Stages, 0, y, run);
  }

  /** Step 2: `run_scoring()`. */
  method ScoringStep(ws: Workspace, client: GeminiClient, inp: Inputs, ghost x0: (World, Session),
                     ghost run: (Stage, (World, Session)) -> ((World, Session), Result<()>))
    returns (res: Result<()>)
    requires Reached(1, x0, (ws.State(), client.State()), run, None)
    requires run(Scoring, (ws.State(), client.State())) == ScoringStage((ws.State(), client.State()), inp)
    modifies ws
    ensures Reached(2, x0, (ws.State(), client.State()), run, Logged(res))
  {
    var scored := inp.scoring(ws.State());
    ws.disk, ws.db, ws.encoderRuns := scored.0.disk, scored.0.db, scored.0.encoderRuns;
    res := scored.1;
    RunStagesStep(Stages, 1, x0, run);
  }

  /** Step 3: `run_extraction()`. */
  method ExtractionStep(ws: Workspace, client: GeminiClient, inp: Inputs, ghost x0: (World, Session),
                        ghost run: (Stage, (World, Session)) -> ((World, Session), Result<()>))
    returns (res: Result<()>)
    requires Reached(2, x0, (ws.State(), client.State()), run, None)
    requires run(Extracting, (ws.State(), client.State())) == ExtractionStage((ws.State(), client.State()), inp)
    modifies ws
    ensures Reached(3, x0, (ws.State(), client.State()), run, Logged(res))
  {
    res := Extract.RunExtraction(ws, inp.rx, inp.env.now, inp.lister);
    RunStagesStep(Stages, 2, x0, run);
  }

  /** Step 4: `run_moderation()`. */
  method ModerationStep(ws: Workspace, client: GeminiClient, inp: Inputs, ghost x0: (World, Session),
                        ghost run: (Stage, (World, Session)) -> ((World, Session), Result<()>))
    returns (res: Result<()>)
    requires client.Valid() && Reached(3, x0, (ws.State(), client.State()), run, None)
    requires run(Moderating, (ws.State(), client.State()))
          == ModerationStage((ws.State(), client.State()), client.keys, client.remote, inp)
    modifies ws, client
    ensures client.Valid()
    ensures Reached(4, x0, (ws.State(), client.State()), run, Logged(res))
  {
    res := Moderate.RunModeration(ws, client, inp.env, inp.lister);
    RunStagesStep(Stages, 3, x0, run);
  }

  /** Step 5: `run_script_gen()`. */
  method ScriptStep(ws: Workspace, client: GeminiClient, inp: Inputs, ghost x0: (World, Session),
                    ghost run: (Stage, (World, Session)) -> ((World, Session), Result<()>))
    returns (res: Result<()>)
    requires client.Valid() && Reached(4, x0, (ws.State(), client.State()), run, None)
    requires run(Scripting, (ws.State(), client.State()))
          == ScriptStage((ws.State(), client.State()), client.keys, client.remote, inp)
    modifies ws, client
    ensures client.Valid()
    ensures Reached(5, x0, (ws.State(), client.State()), run, Logged(res))
  {
    res := ScriptGen.RunScriptGen(ws, client, inp.env, inp.lister);
    RunStagesStep(Stages, 4, x0, run);
  }

  /** Step 6: `run_tts()`. */
  method SpeechStep(ws: Workspace, client: GeminiClient, inp: Inputs, ghost x0: (World, Session),
                    ghost run: (Stage, (World, Session)) -> ((World, Session), Result<()>))
    returns (res: Result<()>)
    requires client.Valid() && Reached(5, x0, (ws.State(), client.State()), run, None)
    requires run(Speaking, (ws.State(), client.State())) == SpeechStage((ws.State(), client.State()), client.remote, inp)
    modifies ws, client
    ensures client.Valid()
    ensures Reached(6, x0, (ws.State(), client.State()), run, Logged(res))
  {
    res := TtsGen.RunTts(ws, client, inp.env, inp.lister);
    RunStagesStep(Stages, 5, x0, run);
  }

  /** Step 7: `run_render()`. */
  method RenderStep(ws: Workspace, client: GeminiClient, inp: Inputs, ghost x0: (World, Session),
                    ghost run: (Stage, (World, Session)) -> ((World, Session), Result<()>))
    returns (res: Result<()>)
    requires Reached(6, x0, (ws.State(), client.State()), run, None)
    requires run(Rendering, (ws.State(), client.State())) == RenderStage((ws.State(), client.State()), inp)
    modifies ws
    ensures Reached(7, x0, (ws.State(), client.State()), run, Logged(res))
  {
    res := Render.RunRender(ws, inp.env, inp.lister);
    RunStagesStep(Stages, 6, x0, run);
  }

  // `run_pipeline()`'s `try` block from one step on: each link runs its
  // step and, when that step returns, the links after it; a step that
  // raises ends the block.

  /** The whole `try` block, from `harvest()` on. */
  method FromHarvest(ws: Workspace, client: GeminiClient, inp: Inputs, ghost x0: (World, Session))
    returns (ran: seq<Stage>, failure: Option<Exc>)
    requires client.Valid() && x0 == (ws.State(), client.State())
    modifies ws, client
    ensures client.Valid()
    ensures RunStages(Stages, x0, StageRun(client.keys, client.remote, inp)) == ((ws.State(), client.State()), ran, failure)
  {
    ghost var run := StageRun(client.keys, client.remote, inp);
    var res := HarvestStep(ws, client, inp, run);
    if res.Err? {
      RunStagesStopsAtError(Stages, 1, x0, run);
      return Stages[..1], Logged(res);
    }
    ran, failure := FromScoring(ws, client, inp, x0);
  }

  /** The `try` block from `run_scoring()` on, after the first 1 steps returned. */
  method FromScoring(ws: Workspace, client: GeminiClient, inp: Inputs, ghost x0: (World, Session))
    returns (ran: seq<Stage>, failure: Option<Exc>)
    requires client.Valid()
    requires Reached(1, x0, (ws.State(), client.State()), StageRun(client.keys, client.remote, inp), None)
    modifies ws, client
    ensures client.Valid()
    ensures RunStages(Stages, x0, StageRun(client.keys, client.remote, inp)) == ((ws.State(), client.State()), ran, failure)
  {
    ghost var run := StageRun(client.keys, client.remote, inp);
    var res := ScoringStep(ws, client, inp, x0, run);
    if res.Err? {
      RunStagesStopsAtError(Stages, 2, x0, run);
      return Stages[..2], Logged(res);
    }
    ran, failure := FromExtraction(ws, client, inp, x0);
  }

  /** The `try` block from `run_extraction()` on, after the first 2 steps returned. */
  method FromExtraction(ws: Workspace, client: GeminiClient, inp: Inputs, ghost x0: (World, Session))
    returns (ran: seq<Stage>, failure: Option<Exc>)
    requires client.Valid()
    requires Reached(2, x0, (ws.State(), client.State()), StageRun(client.keys, client.remote, inp), None)
    modifies ws, client
    ensures client.Valid()
    ensures RunStages(Stages, x0, StageRun(client.keys, client.remote, inp)) == ((ws.State(), client.State()), ran, failure)
  {
    ghost var run := StageRun(client.keys, client.remote, inp);
    var res := ExtractionStep(ws, client, inp, x0, run);
    if res.Err? {
      RunStagesStopsAtError(Stages, 3, x0, run);
      return Stages[..3], Logged(res);
    }
    ran, failure := FromModeration(ws, client, inp, x0);
  }

  /** The `try` block from `run_moderation()` on, after the first 3 steps returned. */
  method FromModeration(ws: Workspace, client: GeminiClient, inp: Inputs, ghost x0: (World, Session))
    returns (ran: seq<Stage>, failure: Option<Exc>)
    requires client.Valid()
    requires Reached(3, x0, (ws.State(), client.State()), StageRun(client.keys, client.remote, inp), None)
    modifies ws, client
    ensures client.Valid()
    ensures RunStages(Stages, x0, StageRun(client.keys, client.remote, inp)) == ((ws.State(), client.State()), ran, failure)
  {
    ghost var run := StageRun(client.keys, client.remote, inp);
    var res := ModerationStep(ws, client, inp, x0, run);
    if res.Err? {
      RunStagesStopsAtError(Stages, 4, x0, run);
      return Stages[..4], Logged(res);
    }
    ran, failure := FromScripting(ws, client, inp, x0);
  }

  /** The `try` block from `run_script_gen()` on, after the first 4 steps returned. */
  method FromScripting(ws: Workspace, client: GeminiClient, inp: Inputs, ghost x0: (World, Session))
    returns (ran: seq<Stage>, failure: Option<Exc>)
    requires client.Valid()
    requires Reached(4, x0, (ws.State(), client.State()), StageRun(client.keys, client.remote, inp), None)
    modifies ws, client
    ensures client.Valid()
    ensures RunStages(Stages, x0, StageRun(client.keys, client.remote, inp)) == ((ws.State(), client.State()), ran, failure)
  {
    ghost var run := StageRun(client.keys, client.remote, inp);
    var res := ScriptStep(ws, client, inp, x0, run);
    if res.Err? {
      RunStagesStopsAtError(Stages, 5, x0, run);
      return Stages[..5], Logged(res);
    }
    ran, failure := FromSpeech(ws, client, inp, x0);
  }

  /** The `try` block from `run_tts()` on, after the first 5 steps returned. */
  method FromSpeech(ws: Workspace, client: GeminiClient, inp: Inputs, ghost x0: (World, Session))
    returns (ran: seq<Stage>, failure: Option<Exc>)
    requires client.Valid()
    requires Reached(5, x0, (ws.State(), client.State()), StageRun(client.keys, client.remote, inp), None)
    modifies ws, client
    ensures client.Valid()
    ensures RunStages(Stages, x0, StageRun(client.keys, client.remote, inp)) == ((ws.State(), client.State()), ran, failure)
  {
    ghost var run := StageRun(client.keys, client.remote, inp);
    var res := SpeechStep(ws, client, inp, x0, run);
    if res.Err? {
      RunStagesStopsAtError(Stages, 6, x0, run);
      return Stages[..6], Logged(res);
    }
    ran, failure := FromRendering(ws, client, inp, x0);
  }

  /** The `try` block's last step, `run_render()`, after the first six
      returned. */
  method FromRendering(ws: Workspace, client: GeminiClient, inp: Inputs, ghost x0: (World, Session))
    returns (ran: seq<Stage>, failure: Option<Exc>)
    requires client.Valid()
    requires Reached(6, x0, (ws.State(), client.State()), StageRun(client.keys, client.remote, inp), None)
    modifies ws, client
    ensures client.Valid()
    ensures RunStages(Stages, x0, StageRun(client.keys, client.remote, inp)) == ((ws.State(), client.State()), ran, failure)
  {
    ghost var run := StageRun(client.keys, client.remote, inp);
    var res := RenderStep(ws, client, inp, x0, run);
    assert Stages[..7] == Stages;
    return Stages, Logged(res);
  }

  /** `run_pipeline()` over the workspace and the shared client: the seven
      steps inside one `try`; the first error that escapes is logged and
      ends the run, which never raises. Returns the stages called and the
      error logged. */
  method RunPipeline(ws: Workspace, client: GeminiClient, inp: Inputs)
    returns (ran: seq<Stage>, failure: Option<Exc>)
    requires client.Valid()
    modifies ws, client
    ensures client.Valid()
    ensures (ws.State(), client.State(), ran, failure)
         == Pipeline(old(ws.State()), old(client.State()), client.keys, client.remote, inp)
  {
    ran, failure := FromHarvest(ws, client, inp, (ws.State(), client.State()));
  }
}
