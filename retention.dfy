/** `retention.py`: the workspace sweep. Under each of the five swept
    directories every file older than the cutoff is deleted (unless the
    deletion is refused), and every directory below it that is left without
    files is removed; the swept directories themselves and `flagged/` stay. */
module Retention {
  import opened Base
  import opened Files
  import opened Store

  /** The directories swept, in order; `flagged/` is not among them. */
  const SweptDirs: seq<string> := ["raw", "canonical", "scripts", "frames", "output"]

  /** `run_retention()` keeps seven days. */
  const DefaultMaxAgeHours := 168

  /** `now - max_age_hours * 3600`. */
  function Cutoff(now: real, maxAgeHours: int): real {
    now - (maxAgeHours * 3600) as real
  }

  /** The files below `root`: those the walk visits. */
  function FilesBelow(d: Disk, root: Path): set<Path> {
    set p | p in d.files && Below(p, root)
  }

  /** The files below `root` that the walk deletes: strictly older than the
      cutoff, and not refused by `os.remove`. */
  function Expired(d: Disk, root: Path, cutoff: real, locked: set<Path>): set<Path> {
    set p | p in FilesBelow(d, root) && d.files[p].mtime < cutoff && p !in locked
  }

  /** No file lies below `q`. */
  predicate NoFileBelow(d: Disk, q: Path) {
    forall p :: p in d.files ==> !Below(p, q)
  }

  /** The directories strictly below `root` without a file anywhere below
      them. */
  function Hollow(d: Disk, root: Path): set<Path> {
    set q | q in d.dirs && Below(q, root) && NoFileBelow(d, q)
  }

  /** The sweep of one directory: nothing unless it is a directory; else the
      expired files go, then every directory below it left without files.
      The second component counts the deleted files. */
  function SweepRoot(d: Disk, root: Path, cutoff: real, locked: set<Path>): (r: (Disk, nat)) {
    if root !in d.dirs then (d, 0)
    else
      var gone := Expired(d, root, cutoff, locked);
      var d1 := d.(files := d.files - gone);
      (d1.(dirs := d1.dirs - Hollow(d1, root)), |gone|)
  }

  /** The sweeps of `names`, in order, with the running count. */
  function SweepAll(d: Disk, names: seq<string>, cutoff: real, locked: set<Path>): (r: (Disk, nat))
    decreases |names|
  {
    if names == [] then (d, 0)
    else
      var (d1, n1) := SweepAll(d, names[..|names| - 1], cutoff, locked);
      var (d2, n2) := SweepRoot(d1, [names[|names| - 1]], cutoff, locked);
      (d2, n1 + n2)
  }

  /** `cleanup_workspace(max_age_hours)` at time `env.now`: the new world and
      `deleted_count`. */
  function Cleanup(w: World, maxAgeHours: int, env: Env): (World, nat) {
    var (d, n) := SweepAll(w.disk, SweptDirs, Cutoff(env.now, maxAgeHours), env.locked);
    (w.(disk := d), n)
  }

  // ---------------------------------------------------------------------
  // One swept directory

  /** What the sweep of `root` keeps: a file is deleted exactly when it lies
      below `root`, is older than the cutoff and its deletion is not
      refused; a directory is removed exactly when it lies strictly below
      `root` and has no file left below it; the count is the number of
      files deleted. */
  lemma SweepRootEffect(d: Disk, root: Path, cutoff: real, locked: set<Path>)
    requires root in d.dirs
    ensures var (d2, n) := SweepRoot(d, root, cutoff, locked);
      && (forall p :: p in d2.files <==>
            p in d.files && !(Below(p, root) && d.files[p].mtime < cutoff && p !in locked))
      && (forall p :: p in d2.files ==> d2.files[p] == d.files[p])
      && (forall q :: q in d2.dirs <==> q in d.dirs && !(Below(q, root) && NoFileBelow(d2, q)))
      && n == |d.files.Keys| - |d2.files.Keys|
  {
    var gone := Expired(d, root, cutoff, locked);
    var d1 := d.(files := d.files - gone);
    assert d1.files.Keys == d.files.Keys - gone;
    assert gone <= d.files.Keys;
    SubtractCount(d.files.Keys, gone);
  }

  lemma SubtractCount<T>(a: set<T>, b: set<T>)
    requires b <= a
    ensures |a - b| == |a| - |b|
  {
    assert a == (a - b) + b;
  }

  /** A sweep of `root` leaves everything that is not below `root` alone. */
  lemma SweepRootFrame(d: Disk, root: Path, cutoff: real, locked: set<Path>, p: Path)
    ensures var d2 := SweepRoot(d, root, cutoff, locked).0;
      && (p in d2.files ==> p in d.files && d2.files[p] == d.files[p])
      && (!Below(p, root) ==>
            && (p in d2.files <==> p in d.files)
            && (p in d2.dirs <==> p in d.dirs))
  {
  }

  // ---------------------------------------------------------------------
  // Well-formed trees

  /** A file below a directory shows up in its listing as the first step
      towards it. */
  lemma FileBelowListed(d: Disk, q: Path, p: Path)
    requires Wf(d) && p in d.files && Below(p, q)
    ensures p[|q|] in ListDir(d, q)
  {
    var c := p[..|q| + 1];
    assert c == q + [p[|q|]];
    if |p| == |q| + 1 {
      assert p == c;
    } else {
      assert c in d.dirs;
    }
  }

  /** An empty directory has no file below it. */
  lemma EmptyIsHollow(d: Disk, q: Path)
    requires Wf(d) && ListDir(d, q) == {}
    ensures NoFileBelow(d, q)
  {
    forall p | p in d.files ensures !Below(p, q) {
      if Below(p, q) {
        FileBelowListed(d, q, p);
      }
    }
  }

  /** A directory below another shows up in its listing as the first step
      towards it. */
  lemma DirBelowListed(d: Disk, q: Path, x: Path)
    requires Wf(d) && x in d.dirs && Below(x, q)
    ensures x[|q|] in ListDir(d, q)
  {
    var c := x[..|q| + 1];
    assert c == q + [x[|q|]];
    if |x| == |q| + 1 {
      assert x == c;
    } else {
      assert c in d.dirs;
    }
  }

  /** Removing an empty directory keeps the tree well formed. */
  lemma RemoveEmptyDirWf(d: Disk, q: Path)
    requires Wf(d) && q in d.dirs && ListDir(d, q) == {}
    ensures Wf(d.(dirs := d.dirs - {q}))
  {
    var e := d.(dirs := d.dirs - {q});
    forall p, k | p in e.files && 0 < k < |p| ensures p[..k] in e.dirs {
      FileBelowListed(d, p[..k], p);
    }
    forall x, k | x in e.dirs && 0 < k < |x| ensures x[..k] in e.dirs {
      DirBelowListed(d, x[..k], x);
    }
  }

  /** `p` below `c` below `q` is below `q`. */
  lemma BelowBelow(p: Path, c: Path, q: Path)
    requires Below(c, q)
    ensures Below(p, c) ==> Below(p, q)
  {
    if Below(p, c) {
      assert p[..|q|] == p[..|c|][..|q|];
    }
  }

  /** The directories strictly below `q`. */
  function DirsBelow(d: Disk, q: Path): set<Path> {
    set x | x in d.dirs && Below(x, q)
  }

  /** A directory below `q` has fewer directories below it than `q`. */
  lemma DeeperFewer(d: Disk, q: Path, c: Path)
    requires c in d.dirs && Below(c, q)
    ensures DirsBelow(d, c) <= DirsBelow(d, q)
    ensures c in DirsBelow(d, q) && c !in DirsBelow(d, c)
  {
    forall x | x in DirsBelow(d, c) ensures x in DirsBelow(d, q) {
      BelowBelow(x, c, q);
    }
    assert c in DirsBelow(d, q) && c !in DirsBelow(d, c);
  }

  lemma FewerCount<T>(a: set<T>, b: set<T>, x: T)
    requires a <= b && x in b && x !in a
    ensures |a| < |b|
  {
    assert b == a + (b - a) && a * (b - a) == {};
    assert x in b - a;
  }

  /** An entry of a directory without files is a directory without files. */
  lemma HollowChild(d: Disk, root: Path, q: Path, n: string)
    requires q in d.dirs && Below(q, root) && NoFileBelow(d, q) && n in ListDir(d, q)
    ensures q + [n] in d.dirs && Below(q + [n], root) && NoFileBelow(d, q + [n])
  {
    var c := q + [n];
    assert Below(c, q) && c[..|q|] == q;
    assert c[..|root|] == q[..|root|];
    forall p | p in d.files ensures !Below(p, c) {
      BelowBelow(p, c, q);
    }
  }

  /** When no directory strictly below `root` is empty, none of them is
      without files: a directory without files would have an empty one at
      the bottom of it. */
  lemma {:induction false} NoEmptyNoHollow(d: Disk, root: Path, q: Path)
    requires forall x :: x in d.dirs && Below(x, root) ==> ListDir(d, x) != {}
    requires q in d.dirs && Below(q, root)
    ensures !NoFileBelow(d, q)
    decreases |DirsBelow(d, q)|
  {
    if NoFileBelow(d, q) {
      var n :| n in ListDir(d, q);
      HollowChild(d, root, q, n);
      DeeperFewer(d, q, q + [n]);
      FewerCount(DirsBelow(d, q + [n]), DirsBelow(d, q), q + [n]);
      NoEmptyNoHollow(d, root, q + [n]);
    }
  }

  /** Deleting files keeps the tree well formed. */
  lemma DeleteFilesWf(d: Disk, gone: set<Path>)
    requires Wf(d)
    ensures Wf(d.(files := d.files - gone))
  {
  }

  /** The sweep of a directory keeps the tree well formed. */
  lemma SweepRootWf(d: Disk, root: Path, cutoff: real, locked: set<Path>)
    requires Wf(d)
    ensures Wf(SweepRoot(d, root, cutoff, locked).0)
  {
    if root in d.dirs {
      var d1 := d.(files := d.files - Expired(d, root, cutoff, locked));
      var d2 := SweepRoot(d, root, cutoff, locked).0;
      var h := Hollow(d1, root);
      forall p, k | p in d2.files && 0 < k < |p| ensures p[..k] in d2.dirs {
        assert p[..k] in d1.dirs;
        if p[..k] in h {
          assert Below(p, p[..k]);
        }
      }
      forall x, k | x in d2.dirs && 0 < k < |x| ensures x[..k] in d2.dirs {
        assert x[..k] in d1.dirs;

      }
    }
  }

  // ---------------------------------------------------------------------
  // All swept directories

  /** `p` lies strictly below one of the swept directories `names`. */
  predicate Swept(p: Path, names: seq<string>) {
    |p| > 1 && p[0] in names
  }

  lemma BelowTop(p: Path, r: string)
    ensures Below(p, [r]) <==> |p| > 1 && p[0] == r
  {
    if |p| > 1 {
      assert p[..1] == [p[0]];
    }
  }

  /** In a well-formed tree a file below a top-level name that is not a
      directory does not exist. */
  lemma NoDirNoFiles(d: Disk, r: string, p: Path)
    requires Wf(d) && [r] !in d.dirs && p in d.files
    ensures !Below(p, [r])
  {
    BelowTop(p, r);
    if |p| > 1 {
      assert p[..1] in d.dirs;
      assert p[..1] == [p[0]];
    }
  }

  /** What the whole sweep does to files: a file is deleted exactly when it
      lies below a swept directory, its modification time is strictly older
      than the cutoff and its deletion is not refused; the files kept are
      unchanged, the tree stays well formed, and the count is the number of
      files deleted. */
  lemma {:induction false} SweepAllFiles(d: Disk, names: seq<string>, cutoff: real, locked: set<Path>)
    requires Wf(d)
    ensures var (d2, n) := SweepAll(d, names, cutoff, locked);
      && Wf(d2)
      && (forall p :: p in d2.files <==>
            p in d.files && !(Swept(p, names) && d.files[p].mtime < cutoff && p !in locked))
      && (forall p :: p in d2.files ==> d2.files[p] == d.files[p])
      && n == |d.files.Keys| - |d2.files.Keys|
    decreases |names|
  {
    if names != [] {
      var init, r := names[..|names| - 1], names[|names| - 1];
      assert names == init + [r];
      SweepAllFiles(d, init, cutoff, locked);
      var (d1, n1) := SweepAll(d, init, cutoff, locked);
      SweepRootWf(d1, [r], cutoff, locked);
      if [r] in d1.dirs {
        SweepRootEffect(d1, [r], cutoff, locked);
      } else {
        forall p | p in d1.files ensures !Below(p, [r]) {
          NoDirNoFiles(d1, r, p);
        }
      }
      forall p {
        BelowTop(p, r);
      }
    }
  }

  /** Files not below `[r]` keep whether anything lies below `q` when `q`
      is not below `[r]` either. */
  lemma OtherTopUntouched(d: Disk, r: string, cutoff: real, locked: set<Path>, q: Path)
    requires |q| > 0 && q[0] != r
    ensures NoFileBelow(SweepRoot(d, [r], cutoff, locked).0, q) <==> NoFileBelow(d, q)
  {
    var d2 := SweepRoot(d, [r], cutoff, locked).0;
    forall p | Below(p, q) ensures p in d2.files <==> p in d.files {
      assert p[0] == q[..|q|][0];
      BelowTop(p, r);
      SweepRootFrame(d, [r], cutoff, locked, p);
    }
  }

  /** What the whole sweep does to directories: a directory is removed
      exactly when it lies strictly below a swept directory and no file is
      left below it. The swept directories themselves are never removed. */
  lemma {:induction false} SweepAllDirs(d: Disk, names: seq<string>, cutoff: real, locked: set<Path>)
    requires Wf(d)
    ensures var d2 := SweepAll(d, names, cutoff, locked).0;
      forall q :: q in d2.dirs <==> q in d.dirs && !(Swept(q, names) && NoFileBelow(d2, q))
    decreases |names|
  {
    if names != [] {
      var init, r := names[..|names| - 1], names[|names| - 1];
      assert names == init + [r];
      SweepAllDirs(d, init, cutoff, locked);
      SweepAllFiles(d, init, cutoff, locked);
      var d1 := SweepAll(d, init, cutoff, locked).0;
      var d2 := SweepRoot(d1, [r], cutoff, locked).0;
      if [r] in d1.dirs {
        SweepRootEffect(d1, [r], cutoff, locked);
      }
      forall p | p in d2.files ensures p in d1.files {
        SweepRootFrame(d1, [r], cutoff, locked, p);
      }
      forall q ensures q in d2.dirs <==> q in d.dirs && !(Swept(q, names) && NoFileBelow(d2, q)) {
        BelowTop(q, r);
        SweepRootFrame(d1, [r], cutoff, locked, q);
        if |q| > 1 && q[0] != r {
          OtherTopUntouched(d1, r, cutoff, locked, q);
        }
      }
    }
  }

  /** `cleanup_workspace`: the database is untouched; files and directories
      go exactly as the sweep of each swept directory says; the count is the
      number of files deleted. */
  lemma CleanupEffect(w: World, maxAgeHours: int, env: Env)
    requires Valid(w)
    ensures var (w2, n) := Cleanup(w, maxAgeHours, env);
      var cutoff := Cutoff(env.now, maxAgeHours);
      && Valid(w2) && w2.db == w.db && w2.encoderRuns == w.encoderRuns
      && (forall p :: p in w2.disk.files <==>
            p in w.disk.files && !(Swept(p, SweptDirs) && w.disk.files[p].mtime < cutoff && p !in env.locked))
      && (forall p :: p in w2.disk.files ==> w2.disk.files[p] == w.disk.files[p])
      && (forall q :: q in w2.disk.dirs <==>
            q in w.disk.dirs && !(Swept(q, SweptDirs) && NoFileBelow(w2.disk, q)))
      && n == |w.disk.files.Keys| - |w2.disk.files.Keys|
  {
    SweepAllFiles(w.disk, SweptDirs, Cutoff(env.now, maxAgeHours), env.locked);
    SweepAllDirs(w.disk, SweptDirs, Cutoff(env.now, maxAgeHours), env.locked);
  }

  /** Nothing in `flagged/`, and nothing outside the swept directories, is
      touched; the swept directories themselves stay. */
  lemma CleanupSparesFlagged(w: World, maxAgeHours: int, env: Env, p: Path)
    requires Valid(w)
    requires p != [] && (p[0] == "flagged" || |p| == 1)
    ensures var w2 := Cleanup(w, maxAgeHours, env).0;
      && (p in w2.disk.files <==> p in w.disk.files)
      && (p in w2.disk.files ==> w2.disk.files[p] == w.disk.files[p])
      && (p in w2.disk.dirs <==> p in w.disk.dirs)
  {
    CleanupEffect(w, maxAgeHours, env);
  }

  /** A file exactly at the cutoff, or newer, is kept. */
  lemma CleanupKeepsRecent(w: World, maxAgeHours: int, env: Env, p: Path)
    requires Valid(w) && p in w.disk.files && w.disk.files[p].mtime >= Cutoff(env.now, maxAgeHours)
    ensures var w2 := Cleanup(w, maxAgeHours, env).0;
      p in w2.disk.files && w2.disk.files[p] == w.disk.files[p]
  {
    CleanupEffect(w, maxAgeHours, env);
  }

  // ---------------------------------------------------------------------
  // The walk

  /** The files loop of the walk over `root`: every file below it older
      than the cutoff is removed, unless `os.remove` refuses, which is
      logged and the walk goes on. Returns how many were removed. */
  method DeleteExpired(ws: Workspace, root: Path, cutoff: real, locked: set<Path>) returns (count: nat)
    modifies ws
    ensures ws.disk == old(ws.disk).(files := old(ws.disk).files - Expired(old(ws.disk), root, cutoff, locked))
    ensures count == |Expired(old(ws.disk), root, cutoff, locked)|
    ensures ws.db == old(ws.db) && ws.encoderRuns == old(ws.encoderRuns)
  {
    ghost var d0 := ws.disk;
    ghost var gone: set<Path> := {};
    ghost var expired := Expired(d0, root, cutoff, locked);
    var todo := FilesBelow(ws.disk, root);
    count := 0;
    while todo != {}
      invariant todo <= FilesBelow(d0, root)
      invariant gone == expired - todo
      invariant ws.disk.files == d0.files - gone && ws.disk.dirs == d0.dirs
      invariant count == |gone|
      invariant ws.db == old(ws.db) && ws.encoderRuns == old(ws.encoderRuns)
      decreases |todo|
    {
      var p :| p in todo;
      ExpireStep(d0, root, cutoff, locked, todo, gone, p);
      var deleted := DeleteIfOld(ws, p, cutoff, locked);
      if deleted {
        count := count + 1;
        gone := gone + {p};
      }
      todo := todo - {p};
    }
    assert gone == expired;
  }

  /** The body of the files loop for one file: `os.remove` when it is
      older than the cutoff; a refusal is logged and nothing changes. */
  method DeleteIfOld(ws: Workspace, p: Path, cutoff: real, locked: set<Path>) returns (deleted: bool)
    requires p in ws.disk.files
    modifies ws
    ensures deleted <==> old(ws.disk).files[p].mtime < cutoff && p !in locked
    ensures ws.disk == if deleted then old(ws.disk).(files := old(ws.disk).files - {p}) else old(ws.disk)
    ensures ws.db == old(ws.db) && ws.encoderRuns == old(ws.encoderRuns)
  {
    deleted := false;
    if ws.disk.files[p].mtime < cutoff {
      if p in locked {
        // os.remove refuses: logged, the walk goes on
      } else {
        ws.disk := ws.disk.(files := ws.disk.files - {p});
        deleted := true;
      }
    }
  }

  /** One file of the walk: it is still there with its old time, and is
      expired exactly when deleting it is what the remaining walk needs. */
  lemma ExpireStep(d0: Disk, root: Path, cutoff: real, locked: set<Path>,
                   todo: set<Path>, gone: set<Path>, p: Path)
    requires p in todo && todo <= FilesBelow(d0, root)
    requires gone == Expired(d0, root, cutoff, locked) - todo
    ensures p in (d0.files - gone) && (d0.files - gone)[p] == d0.files[p]
    ensures d0.files[p].mtime < cutoff && p !in locked ==>
      && gone + {p} == Expired(d0, root, cutoff, locked) - (todo - {p})
      && (d0.files - gone) - {p} == d0.files - (gone + {p})
      && p !in gone
    ensures !(d0.files[p].mtime < cutoff && p !in locked) ==>
      gone == Expired(d0, root, cutoff, locked) - (todo - {p})
  {
  }

  /** The directories loop of the walk over `root`: empty directories below
      it are removed one at a time, in no fixed order, until none is left. */
  method RemoveHollow(ws: Workspace, root: Path)
    requires Wf(ws.disk)
    modifies ws
    ensures ws.disk == old(ws.disk).(dirs := old(ws.disk).dirs - Hollow(old(ws.disk), root))
    ensures ws.db == old(ws.db) && ws.encoderRuns == old(ws.encoderRuns)
  {
    ghost var d0 := ws.disk;
    while exists q :: q in ws.disk.dirs && Below(q, root) && ListDir(ws.disk, q) == {}
      invariant Wf(ws.disk) && ws.disk.files == d0.files
      invariant d0.dirs - Hollow(d0, root) <= ws.disk.dirs <= d0.dirs
      invariant ws.db == old(ws.db) && ws.encoderRuns == old(ws.encoderRuns)
      decreases |ws.disk.dirs|
    {
      var q :| q in ws.disk.dirs && Below(q, root) && ListDir(ws.disk, q) == {};
      EmptyIsHollow(ws.disk, q);
      assert q in Hollow(d0, root);
      RemoveEmptyDirWf(ws.disk, q);
      ws.disk := ws.disk.(dirs := ws.disk.dirs - {q});
    }
    forall q | q in ws.disk.dirs && Below(q, root) ensures !NoFileBelow(d0, q) {
      NoEmptyNoHollow(ws.disk, root, q);
    }
  }

  /** The walk over one swept directory; a missing one is skipped, and the
      walk over a file yields nothing. */
  method SweepIn(ws: Workspace, root: Path, cutoff: real, locked: set<Path>) returns (n: nat)
    requires Wf(ws.disk)
    modifies ws
    ensures (ws.disk, n) == SweepRoot(old(ws.disk), root, cutoff, locked)
    ensures ws.db == old(ws.db) && ws.encoderRuns == old(ws.encoderRuns)
  {
    if !Exists(ws.disk, root) || root !in ws.disk.dirs {
      return 0;
    }
    ghost var d0 := ws.disk;
    n := DeleteExpired(ws, root, cutoff, locked);
    DeleteFilesWf(d0, Expired(d0, root, cutoff, locked));
    RemoveHollow(ws, root);
  }

  lemma SweepAllSnoc(d: Disk, names: seq<string>, name: string, cutoff: real, locked: set<Path>)
    ensures var (d1, n1) := SweepAll(d, names, cutoff, locked);
      var (d2, n2) := SweepRoot(d1, [name], cutoff, locked);
      SweepAll(d, names + [name], cutoff, locked) == (d2, n1 + n2)
  {
    assert (names + [name])[..|names|] == names;
  }

  /** `cleanup_workspace(max_age_hours)`: sweeps each directory in turn and
      returns `deleted_count`. */
  method CleanupWorkspace(ws: Workspace, maxAgeHours: int, env: Env) returns (deletedCount: nat)
    requires Valid(ws.State())
    modifies ws
    ensures (ws.State(), deletedCount) == Cleanup(old(ws.State()), maxAgeHours, env)
  {
    var cutoff := Cutoff(env.now, maxAgeHours);
    ghost var d0 := ws.disk;
    deletedCount := 0;
    for i := 0 to |SweptDirs|
      invariant (ws.disk, deletedCount) == SweepAll(d0, SweptDirs[..i], cutoff, env.locked)
      invariant Wf(ws.disk)
      invariant ws.db == old(ws.db) && ws.encoderRuns == old(ws.encoderRuns)
    {
      var name := SweptDirs[i];
      ghost var before := ws.disk;
      var n := SweepIn(ws, [name], cutoff, env.locked);
      SweepRootWf(before, [name], cutoff, env.locked);
      deletedCount := deletedCount + n;
      SweepAllSnoc(d0, SweptDirs[..i], name, cutoff, env.locked);
      assert SweptDirs[..i + 1] == SweptDirs[..i] + [name];
    }
    assert SweptDirs[..|SweptDirs|] == SweptDirs;
  }

  /** `run_retention()`: the sweep with the seven-day default. */
  method RunRetention(ws: Workspace, env: Env)
    requires Valid(ws.State())
    modifies ws
    ensures ws.State() == Cleanup(old(ws.State()), DefaultMaxAgeHours, env).0
  {
    var _ := CleanupWorkspace(ws, DefaultMaxAgeHours, env);
  }
}
