/** The persistent state every stage reads and writes: the workspace
    directory tree, the database, and the record of encoder invocations; and
    the environment a run sees (the clock, failing statements, files that
    cannot be deleted, and how the encoder exits). */
module Store {
  import opened Base
  import opened Files
  import opened Db

  /** One invocation of `ffmpeg -f concat -i <manifest> -i <audio> ... <output>`. */
  datatype EncoderRun = EncoderRun(manifest: Path, audio: Path, output: Path)

  /** How an encoder invocation ends: with an exit status, or not at all
      because the executable is missing. */
  datatype Exit = Exited(code: int) | NotInstalled

  datatype Env = Env(
    now: real,                  // the clock, read by datetime.now() and time.time()
    faults: Faults,             // database statements that fail
    locked: set<Path>,          // files os.remove refuses to delete
    encoder: Path -> Exit)      // encoder outcome, by output path

  datatype World = World(disk: Disk, db: Tables, encoderRuns: seq<EncoderRun>)

  ghost predicate Valid(w: World) {
    Wf(w.disk)
  }

  /** The workspace and database as mutable state. */
  class Workspace {
    var disk: Disk
    var db: Tables
    var encoderRuns: seq<EncoderRun>

    function State(): World
      reads this
    {
      World(disk, db, encoderRuns)
    }

    constructor (w: World)
      ensures State() == w
    {
      disk := w.disk;
      db := w.db;
      encoderRuns := w.encoderRuns;
    }
  }
}
