/** `main.py`, the store logic behind the dashboard: the quarantine list,
    resolving a quarantined post, and the list of finished videos. */
module Dashboard {
  import opened Base
  import opened Text
  import opened Files
  import opened Db
  import opened Store

  // ---------------------------------------------------------------------
  // GET /api/flagged

  /** One row of `SELECT * FROM flagged`. */
  datatype FlagItem = FlagItem(postId: string, row: FlagRow)

  /** The rows of `flagged` in the order the table is scanned. */
  function Rows(t: map<string, FlagRow>, order: seq<string>): (r: seq<FlagItem>)
    ensures forall x :: x in r <==> x.postId in order && x.postId in t && x.row == t[x.postId]
    decreases |order|
  {
    if order == [] then []
    else
      var init := Rows(t, order[..|order| - 1]);
      var id := order[|order| - 1];
      assert forall n :: n in order <==> n in order[..|order| - 1] || n == id;
      if id in t then init + [FlagItem(id, t[id])] else init
  }

  /** Rows ordered by `flagged_at`, latest first. */
  predicate Latest(xs: seq<FlagItem>) {
    forall i, j :: 0 <= i < j < |xs| ==> xs[i].row.flaggedAt >= xs[j].row.flaggedAt
  }

  /** No post id occurs twice. */
  predicate OncePerPost(xs: seq<FlagItem>) {
    forall i, j :: 0 <= i < j < |xs| ==> xs[i].postId != xs[j].postId
  }

  /** Places `x` before the first row not later than it. */
  function InsertLatest(x: FlagItem, xs: seq<FlagItem>): seq<FlagItem>
    decreases |xs|
  {
    if xs == [] || x.row.flaggedAt >= xs[0].row.flaggedAt then [x] + xs
    else [xs[0]] + InsertLatest(x, xs[1..])
  }

  /** `ORDER BY flagged_at DESC`. */
  function SortLatest(xs: seq<FlagItem>): seq<FlagItem>
    decreases |xs|
  {
    if xs == [] then [] else InsertLatest(xs[0], SortLatest(xs[1..]))
  }

  /** `get_flagged()`: every flagged row, latest first. */
  function GetFlagged(t: Tables, order: seq<string>): seq<FlagItem> {
    SortLatest(Rows(t.flagged, order))
  }

  lemma {:induction false} InsertLatestPermutes(x: FlagItem, xs: seq<FlagItem>)
    ensures multiset(InsertLatest(x, xs)) == multiset(xs) + multiset{x}
    decreases |xs|
  {
    if !(xs == [] || x.row.flaggedAt >= xs[0].row.flaggedAt) {
      InsertLatestPermutes(x, xs[1..]);
      assert xs == [xs[0]] + xs[1..];
    }
  }

  lemma {:induction false} InsertLatestSorted(x: FlagItem, xs: seq<FlagItem>)
    requires Latest(xs)
    ensures Latest(InsertLatest(x, xs))
    decreases |xs|
  {
    if !(xs == [] || x.row.flaggedAt >= xs[0].row.flaggedAt) {
      InsertLatestSorted(x, xs[1..]);
      InsertLatestPermutes(x, xs[1..]);
      var rest := InsertLatest(x, xs[1..]);
      forall k | 0 <= k < |rest| ensures xs[0].row.flaggedAt >= rest[k].row.flaggedAt {
        assert rest[k] in multiset(rest);
        assert rest[k] in multiset(xs[1..]) + multiset{x};
        if rest[k] != x {
          var m :| 0 <= m < |xs[1..]| && xs[1..][m] == rest[k];
          assert xs[m + 1] == rest[k];
        }
      }
    }
  }

  /** Sorting orders the rows latest first and keeps exactly the rows it
      was given. */
  lemma {:induction false} SortLatestSortsAndPermutes(xs: seq<FlagItem>)
    ensures Latest(SortLatest(xs))
    ensures multiset(SortLatest(xs)) == multiset(xs)
    decreases |xs|
  {
    if xs != [] {
      SortLatestSortsAndPermutes(xs[1..]);
      InsertLatestSorted(xs[0], SortLatest(xs[1..]));
      InsertLatestPermutes(xs[0], SortLatest(xs[1..]));
      assert xs == [xs[0]] + xs[1..];
    }
  }

  lemma {:induction false} RowsOncePerPost(t: map<string, FlagRow>, order: seq<string>)
    requires Distinct(order)
    ensures OncePerPost(Rows(t, order))
    decreases |order|
  {
    if order != [] {
      var init, id := order[..|order| - 1], order[|order| - 1];
      RowsOncePerPost(t, init);
      var r0 := Rows(t, init);
      assert id !in init;
      if id in t {
        var r := r0 + [FlagItem(id, t[id])];
        forall i, j | 0 <= i < j < |r| ensures r[i].postId != r[j].postId {
          if j == |r0| {
            assert r[i] == r0[i] && r[i] in r0;
          } else {
            assert r[i] == r0[i] && r[j] == r0[j];
          }
        }
      }
    }
  }

  /** With one row per post id, no row occurs twice. */
  lemma AtMostOnce(xs: seq<FlagItem>, x: FlagItem)
    requires OncePerPost(xs)
    ensures multiset(xs)[x] <= 1
    decreases |xs|
  {
    if xs != [] {
      AtMostOnce(xs[1..], x);
      assert xs == [xs[0]] + xs[1..];
      if xs[0] == x {
        assert x !in xs[1..];
      }
    }
  }

  /** Two positions holding the same row make it occur twice. */
  lemma TwoPositions(ys: seq<FlagItem>, i: nat, j: nat)
    requires i < j < |ys|
    ensures ys[i] == ys[j] ==> multiset(ys)[ys[i]] >= 2
  {
    assert ys == ys[..i] + [ys[i]] + ys[i + 1..j] + [ys[j]] + ys[j + 1..];
  }

  /** With one row per post id, rows with the same post id are the same row. */
  lemma SamePostSameRow(xs: seq<FlagItem>, x: FlagItem, y: FlagItem)
    requires OncePerPost(xs)
    ensures x in xs && y in xs && x.postId == y.postId ==> x == y
  {
  }

  /** A permutation of rows with one row per post id has one row per post
      id. */
  lemma PermutationOncePerPost(xs: seq<FlagItem>, ys: seq<FlagItem>)
    requires OncePerPost(xs) && multiset(xs) == multiset(ys)
    ensures OncePerPost(ys)
  {
    forall i, j | 0 <= i < j < |ys| ensures ys[i].postId != ys[j].postId {
      assert ys[i] in multiset(ys) && ys[j] in multiset(ys);
      SamePostSameRow(xs, ys[i], ys[j]);
      AtMostOnce(xs, ys[i]);
      TwoPositions(ys, i, j);
    }
  }

  /** `get_flagged()` lists every flagged row exactly once, with its stored
      columns, latest `flagged_at` first. */
  lemma GetFlaggedListsAll(t: Tables, order: seq<string>)
    requires Enumerates(order, t.flagged.Keys)
    ensures var r := GetFlagged(t, order);
      && Latest(r)
      && OncePerPost(r)
      && (forall x :: x in r <==> x.postId in t.flagged && x.row == t.flagged[x.postId])
  {
    var rows := Rows(t.flagged, order);
    SortLatestSortsAndPermutes(rows);
    RowsOncePerPost(t.flagged, order);
    PermutationOncePerPost(rows, SortLatest(rows));
    forall x ensures x in SortLatest(rows) <==> x in rows {
      assert x in SortLatest(rows) <==> x in multiset(SortLatest(rows));
      assert x in rows <==> x in multiset(rows);
    }
  }

  // ---------------------------------------------------------------------
  // POST /api/flagged/{post_id}/resolve

  /** The reply of `resolve_flag`. */
  const Resolved := "resolved"

  /** Whether resolving `id` removes a stored file: the row exists, its
      `data_path` is not empty, and something exists there. */
  predicate RemovesFile(w: World, id: string) {
    id in w.db.flagged && w.db.flagged[id].dataPath != [] && Exists(w.disk, w.db.flagged[id].dataPath)
  }

  /** `resolve_flag(post_id)`: removes the stored file when `RemovesFile`
      says so (`os.remove` raises on a directory or a refused deletion),
      then deletes the row. */
  function ResolveFlag(w: World, id: string, env: Env): (World, Result<string>) {
    if RemovesFile(w, id) && !(w.db.flagged[id].dataPath in w.disk.files && w.db.flagged[id].dataPath !in env.locked) then
      (w, Err(OSError(w.db.flagged[id].dataPath)))
    else
      var d := if RemovesFile(w, id) then w.disk.(files := w.disk.files - {w.db.flagged[id].dataPath}) else w.disk;
      match DeleteFlag(w.db, id, env.faults)
      case Err(e) => (w.(disk := d), Err(e))
      case Ok(t) => (w.(disk := d, db := t), Ok(Resolved))
  }

  /** What resolving does: only the flagged row of `id` is deleted, only
      its stored file is removed, and only when the row exists, names a
      path and something is there; the reply is "resolved" unless the
      removal or the delete raised. */
  lemma ResolveEffect(w: World, id: string, env: Env)
    ensures var (w2, r) := ResolveFlag(w, id, env);
      && w2.db.candidates == w.db.candidates && w2.db.scripts == w.db.scripts
      && w2.disk.dirs == w.disk.dirs && w2.encoderRuns == w.encoderRuns
      && (r.Ok? <==> (!RemovesFile(w, id)
                       || (w.db.flagged[id].dataPath in w.disk.files && w.db.flagged[id].dataPath !in env.locked))
                     && (Flagged, id) !in env.faults)
      && (r.Ok? ==> r.value == "resolved" && w2.db.flagged == w.db.flagged - {id})
      && (r.Err? ==> w2.db.flagged == w.db.flagged)
      && (!RemovesFile(w, id) ==> w2.disk.files == w.disk.files)
      && (RemovesFile(w, id) && r.Ok? ==> w2.disk.files == w.disk.files - {w.db.flagged[id].dataPath})
  {
  }

  /** Resolving an unknown id changes nothing and still answers
      "resolved". */
  lemma ResolveUnknown(w: World, id: string, env: Env)
    requires id !in w.db.flagged && (Flagged, id) !in env.faults
    ensures ResolveFlag(w, id, env) == (w, Ok("resolved"))
  {
    assert w.db.flagged - {id} == w.db.flagged;
    assert w.db.(flagged := w.db.flagged - {id}) == w.db;
  }

  /** Resolving twice is resolving once: the second call changes nothing
      and gives the same reply. */
  lemma ResolveIdempotent(w: World, id: string, env: Env)
    requires ResolveFlag(w, id, env).1.Ok?
    ensures var (w1, r1) := ResolveFlag(w, id, env);
      ResolveFlag(w1, id, env) == (w1, r1)
  {
    ResolveEffect(w, id, env);
    ResolveUnknown(ResolveFlag(w, id, env).0, id, env);
  }

  /** `resolve_flag` over the workspace. */
  method ResolveFlagIn(ws: Workspace, id: string, env: Env) returns (r: Result<string>)
    modifies ws
    ensures (ws.State(), r) == ResolveFlag(old(ws.State()), id, env)
  {
    if id in ws.db.flagged && ws.db.flagged[id].dataPath != [] && Exists(ws.disk, ws.db.flagged[id].dataPath) {
      var p := ws.db.flagged[id].dataPath;
      if p !in ws.disk.files || p in env.locked {
        return Err(OSError(p));
      }
      ws.disk := ws.disk.(files := ws.disk.files - {p});
    }
    var t := DeleteFlag(ws.db, id, env.faults);
    if t.Err? {
      return Err(t.error);
    }
    ws.db := t.value;
    return Ok(Resolved);
  }

  // ---------------------------------------------------------------------
  // GET /api/outputs

  const VideoSuffix := ".mp4"

  /** `get_outputs()` for the listing of `output/` in the given order:
      nothing when the directory is missing; `os.listdir` raises when it is
      a file. */
  function GetOutputs(d: Disk, order: seq<string>): Result<seq<string>> {
    if !Exists(d, ["output"]) then Ok([])
    else if ["output"] in d.files then Err(OSError(["output"]))
    else Ok(WithSuffix(order, VideoSuffix))
  }

  /** `get_outputs()` lists each entry of `output/` whose name ends in
      ".mp4", each once, and nothing else. */
  lemma GetOutputsVideos(d: Disk, order: seq<string>)
    requires Wf(d)
    requires Enumerates(order, ListDir(d, ["output"]))
    ensures var r := GetOutputs(d, order);
      && (r.Err? <==> ["output"] in d.files)
      && (r.Ok? ==> Distinct(r.value)
                    && forall n :: n in r.value <==> n in ListDir(d, ["output"]) && EndsWith(n, ".mp4"))
  {
    WithSuffixDistinct(order, VideoSuffix);
    if !Exists(d, ["output"]) {
      forall n ensures n !in ListDir(d, ["output"]) {
        assert ["output"] + [n] == ["output", n];
        assert ["output", n][..1] == ["output"];
      }
    }
  }
}
