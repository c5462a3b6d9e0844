/** Ingestion: posts are fetched from the hot and top-of-day listings of
    each subreddit, and every post whose id is not yet in `candidates` gets a
    raw JSON file (with at most ten comments) and one row with score 0.0.
    Reddit is an oracle. */
module Harvest {
  import opened Base
  import opened Text
  import opened JsonDoc
  import opened Files
  import opened Db
  import opened Store

  const DefaultSubreddits: seq<string> := ["AskReddit", "Showerthoughts", "LifeProTips"]
  const DefaultLimit: nat := 10
  const CommentCap: nat := 10

  datatype Comment = Comment(body: string, author: Option<string>, score: int)

  /** A submission as the Reddit client returns it. `comments` is the
      flattened comment forest, or the error fetching it raises. */
  datatype Post = Post(
    id: string, title: string, author: Option<string>, subreddit: string,
    score: int, numComments: int, createdUtc: real, url: string,
    selftext: string, permalink: string, comments: Result<seq<Comment>>)

  /** The hot and top-of-day listings of each subreddit, or the error
      fetching them raises. */
  datatype Reddit = Reddit(hot: string -> Result<seq<Post>>, top: string -> Result<seq<Post>>)

  /** `str(author)`: a deleted account is None. */
  function AuthorName(a: Option<string>): string {
    match a
    case None => "None"
    case Some(n) => n
  }

  function Take<T>(xs: seq<T>, n: nat): (r: seq<T>)
    ensures |r| == if n < |xs| then n else |xs|
    ensures r == xs[..|r|]
  {
    if n < |xs| then xs[..n] else xs
  }

  function RawPath(id: string): Path {
    ["raw", id + ".json"]
  }

  function CommentDoc(c: Comment): Json {
    Obj([Field("body", Str(c.body)), Field("author", Str(AuthorName(c.author))), Field("score", Int(c.score))])
  }

  function CommentDocs(cs: seq<Comment>): (r: seq<Json>)
    ensures |r| == |cs| && forall i :: 0 <= i < |cs| ==> r[i] == CommentDoc(cs[i])
  {
    seq(|cs|, i requires 0 <= i < |cs| => CommentDoc(cs[i]))
  }

  /** The document `save_raw_post` writes for a post with these comments. */
  function RawPayload(p: Post, comments: seq<Comment>): Json {
    Obj([
      Field("id", Str(p.id)), Field("title", Str(p.title)), Field("author", Str(AuthorName(p.author))),
      Field("subreddit", Str(p.subreddit)), Field("score", Int(p.score)),
      Field("num_comments", Int(p.numComments)), Field("created_utc", Float(p.createdUtc)),
      Field("url", Str(p.url)), Field("selftext", Str(p.selftext)), Field("permalink", Str(p.permalink)),
      Field("comments_data", Arr(CommentDocs(Take(comments, CommentCap))))])
  }

  /** `save_raw_post(post)`: create `raw/`, fetch the comments, and write
      `raw/<id>.json`. Creating the directory takes effect even when a later
      step raises. */
  function SaveRaw(d: Disk, p: Post, now: real): (r: (Disk, Result<Path>))
    ensures r.1.Ok? ==> r.1.value == RawPath(p.id)
  {
    match MakeDirs(d, ["raw"])
    case Err(e) => (d, Err(e))
    case Ok(d1) =>
      match p.comments
      case Err(e) => (d1, Err(e))
      case Ok(cs) =>
        match WriteFile(d1, RawPath(p.id), Doc(RawPayload(p, cs)), now)
        case Err(e) => (d1, Err(e))
        case Ok(d2) => (d2, Ok(RawPath(p.id)))
  }

  /** The row a new post gets: the initial score is 0.0. */
  function NewCandidate(p: Post, rawPath: Path, now: real): Candidate {
    Candidate(p.subreddit, p.title, AuthorName(p.author), p.score, p.numComments,
              now, (now - p.createdUtc) / 3600.0, 0.0, rawPath)
  }

  /** One iteration of the harvest loop: a known id is skipped; otherwise the
      raw file is saved and the row inserted, and an exception from either
      step is caught (whatever the first step changed stays). */
  function HarvestPost(w: World, p: Post, env: Env): World {
    if p.id in w.db.candidates then w
    else
      var (d1, saved) := SaveRaw(w.disk, p, env.now);
      match saved
      case Err(_) => w.(disk := d1)
      case Ok(path) =>
        match InsertCandidate(w.db, p.id, NewCandidate(p, path, env.now), env.faults)
        case Err(_) => w.(disk := d1)
        case Ok(db1) => w.(disk := d1, db := db1)
  }

  /** The loop over a sequence of posts, in order. */
  function HarvestPosts(w: World, posts: seq<Post>, env: Env): World
    decreases |posts|
  {
    if posts == [] then w
    else HarvestPost(HarvestPosts(w, posts[..|posts| - 1], env), posts[|posts| - 1], env)
  }

  /** The posts of one subreddit: the hot listing, then the top-of-day
      listing, each cut to `limit`. Fetching either can raise. */
  function Batch(reddit: Reddit, sub: string, limit: nat): Result<seq<Post>> {
    var hot :- reddit.hot(sub);
    var top :- reddit.top(sub);
    Ok(Take(hot, limit) + Take(top, limit))
  }

  /** `harvest(subreddits, limit)`: the subreddits in the given order; a
      listing error escapes and ends the harvest. */
  function HarvestSubs(w: World, reddit: Reddit, subs: seq<string>, limit: nat, env: Env): (World, Result<()>)
    decreases |subs|
  {
    if subs == [] then (w, Ok(()))
    else
      var (w1, r1) := HarvestSubs(w, reddit, subs[..|subs| - 1], limit, env);
      if r1.Err? then (w1, r1)
      else
        match Batch(reddit, subs[|subs| - 1], limit)
        case Err(e) => (w1, Err(e))
        case Ok(posts) => (HarvestPosts(w1, posts, env), Ok(()))
  }

  // ---------------------------------------------------------------------
  // Properties

  /** A post whose id is already a candidate is skipped: nothing changes. */
  lemma KnownPostSkipped(w: World, p: Post, env: Env)
    requires p.id in w.db.candidates
    ensures HarvestPost(w, p, env) == w
  {
  }

  /** A new post whose file can be written and whose row can be inserted gets
      its raw file and exactly one new row, with score 0.0 and the path
      `save_raw_post` returned. */
  lemma NewPostRecorded(w: World, p: Post, env: Env)
    requires p.id !in w.db.candidates && p.comments.Ok?
    requires "raw" !in Keys(w.disk.files) && RawPath(p.id) !in w.disk.dirs
    requires (Candidates, p.id) !in env.faults
    ensures var w2 := HarvestPost(w, p, env);
      && w2.db == w.db.(candidates := w.db.candidates[p.id := NewCandidate(p, RawPath(p.id), env.now)])
      && w2.db.candidates[p.id].score == 0.0
      && w2.disk.files == w.disk.files[RawPath(p.id) := File(Doc(RawPayload(p, p.comments.value)), env.now)]
  {
    assert ["raw"][..1] == ["raw"];
    var d1 := MakeDirs(w.disk, ["raw"]).value;
    assert Parent(RawPath(p.id)) == ["raw"];
    assert RawPath(p.id) !in d1.dirs by {
      assert forall k :: 0 < k <= 1 ==> ["raw"][..k] == ["raw"];
    }
  }

  function Keys<T>(m: map<Path, T>): set<string> {
    set p | p in m && |p| == 1 :: p[0]
  }

  /** An insert that fails after the raw file was saved leaves the file and no row. */
  lemma InsertFailureKeepsFile(w: World, p: Post, env: Env)
    requires p.id !in w.db.candidates
    requires SaveRaw(w.disk, p, env.now).1.Ok? && (Candidates, p.id) in env.faults
    ensures var w2 := HarvestPost(w, p, env);
      && w2.db == w.db && p.id !in w2.db.candidates
      && RawPath(p.id) in w2.disk.files
  {
  }

  /** The raw document keeps the first ten comments (at most), in listing
      order, each with its body, author and score. */
  lemma RawPayloadKeepsTenComments(p: Post, cs: seq<Comment>)
    ensures var doc := RawPayload(p, cs);
      && Index(doc, "comments_data").Ok?
      && var kept := Index(doc, "comments_data").value.items;
      && |kept| == (if |cs| < 10 then |cs| else 10)
      && forall i :: 0 <= i < |kept| ==>
           kept[i] == Obj([Field("body", Str(cs[i].body)), Field("author", Str(AuthorName(cs[i].author))),
                           Field("score", Int(cs[i].score))])
  {
    var doc := RawPayload(p, cs);
    FindFirst(doc.fields, 10);
  }

  /** Harvesting never deletes or updates a candidate row and never touches
      the other tables. */
  lemma {:induction false} HarvestOnlyInserts(w: World, posts: seq<Post>, env: Env)
    ensures var w2 := HarvestPosts(w, posts, env);
      && w2.db.scripts == w.db.scripts && w2.db.flagged == w.db.flagged
      && forall id :: id in w.db.candidates ==> id in w2.db.candidates && w2.db.candidates[id] == w.db.candidates[id]
    decreases |posts|
  {
    if posts != [] {
      HarvestOnlyInserts(w, posts[..|posts| - 1], env);
    }
  }

  /** A post whose id was inserted earlier in the same run (from the hot and
      the top listing, or under another subreddit) is skipped. */
  lemma DuplicateInRunSkipped(w: World, posts: seq<Post>, p: Post, env: Env)
    requires p.id in HarvestPosts(w, posts, env).db.candidates
    ensures HarvestPosts(w, posts + [p], env) == HarvestPosts(w, posts, env)
  {
    assert (posts + [p])[..|posts|] == posts;
  }

  /** Each new row comes from a post of the run with that id, saved under
      `raw/<id>.json`, with score 0.0. */
  lemma {:induction false} NewRowsComeFromPosts(w: World, posts: seq<Post>, env: Env)
    ensures var w2 := HarvestPosts(w, posts, env);
      forall id :: id in w2.db.candidates && id !in w.db.candidates ==>
        exists i :: 0 <= i < |posts| && posts[i].id == id
          && w2.db.candidates[id] == NewCandidate(posts[i], RawPath(id), env.now)
    decreases |posts|
  {
    if posts != [] {
      var init := posts[..|posts| - 1];
      NewRowsComeFromPosts(w, init, env);
      HarvestOnlyInserts(HarvestPosts(w, init, env), [posts[|posts| - 1]], env);
      var w1 := HarvestPosts(w, init, env);
      var w2 := HarvestPosts(w, posts, env);
      assert HarvestPosts(w1, [posts[|posts| - 1]], env) == w2 by {
        assert [posts[|posts| - 1]][..0] == [];
      }
      forall id | id in w2.db.candidates && id !in w.db.candidates
        ensures exists i :: 0 <= i < |posts| && posts[i].id == id
                  && w2.db.candidates[id] == NewCandidate(posts[i], RawPath(id), env.now)
      {
        if id in w1.db.candidates {
          var i :| 0 <= i < |init| && init[i].id == id
                   && w1.db.candidates[id] == NewCandidate(init[i], RawPath(id), env.now);
          assert posts[i] == init[i];
        } else {
          assert posts[|posts| - 1].id == id;
        }
      }
    }
  }

  lemma {:induction false} HarvestPostsAppend(w: World, xs: seq<Post>, ys: seq<Post>, env: Env)
    ensures HarvestPosts(w, xs + ys, env) == HarvestPosts(HarvestPosts(w, xs, env), ys, env)
    decreases |ys|
  {
    if ys == [] {
      assert xs + ys == xs;
    } else {
      assert (xs + ys)[..|xs + ys| - 1] == xs + ys[..|ys| - 1];
      HarvestPostsAppend(w, xs, ys[..|ys| - 1], env);
    }
  }

  /** When every listing can be fetched, the harvest processes one stream of
      posts: subreddit by subreddit in the given order, and within each the
      hot listing before the top-of-day listing. */
  lemma {:induction false} HarvestOrder(w: World, reddit: Reddit, subs: seq<string>, limit: nat, env: Env)
    requires forall i :: 0 <= i < |subs| ==> reddit.hot(subs[i]).Ok? && reddit.top(subs[i]).Ok?
    ensures HarvestSubs(w, reddit, subs, limit, env)
         == (HarvestPosts(w, Flatten(seq(|subs|, i requires 0 <= i < |subs| =>
                                          Take(reddit.hot(subs[i]).value, limit) + Take(reddit.top(subs[i]).value, limit))), env),
             Ok(()))
    decreases |subs|
  {
    if subs != [] {
      var init := subs[..|subs| - 1];
      HarvestOrder(w, reddit, init, limit, env);
      var batches := seq(|subs|, i requires 0 <= i < |subs| =>
                           Take(reddit.hot(subs[i]).value, limit) + Take(reddit.top(subs[i]).value, limit));
      var initBatches := seq(|init|, i requires 0 <= i < |init| =>
                               Take(reddit.hot(init[i]).value, limit) + Take(reddit.top(init[i]).value, limit));
      assert batches[..|batches| - 1] == initBatches;
      HarvestPostsAppend(w, Flatten(initBatches), batches[|batches| - 1], env);
    }
  }

  /** Only a listing error escapes from `harvest`; everything a single post
      raises is caught. */
  lemma {:induction false} OnlyListingErrorsEscape(w: World, reddit: Reddit, subs: seq<string>, limit: nat, env: Env)
    ensures HarvestSubs(w, reddit, subs, limit, env).1.Err? ==>
      exists i :: 0 <= i < |subs| && (reddit.hot(subs[i]).Err? || reddit.top(subs[i]).Err?)
    decreases |subs|
  {
    if subs != [] {
      var init := subs[..|subs| - 1];
      OnlyListingErrorsEscape(w, reddit, init, limit, env);
      if HarvestSubs(w, reddit, init, limit, env).1.Err? {
        var i :| 0 <= i < |init| && (reddit.hot(init[i]).Err? || reddit.top(init[i]).Err?);
        assert subs[i] == init[i];
      }
    }
  }

  // ---------------------------------------------------------------------
  // The imperative stage

  /** The comment loop of `save_raw_post`: the first ten comments, appended
      one by one. */
  method CollectComments(cs: seq<Comment>) returns (docs: seq<Json>)
    ensures docs == CommentDocs(Take(cs, CommentCap))
  {
    var listed := Take(cs, CommentCap);
    docs := [];
    var i := 0;
    while i < |listed|
      invariant 0 <= i <= |listed|
      invariant docs == CommentDocs(listed[..i])
    {
      docs := docs + [CommentDoc(listed[i])];
      i := i + 1;
      assert listed[..i] == listed[..i - 1] + [listed[i - 1]];
    }
    assert listed[..i] == listed;
  }

  /** `save_raw_post(post)`. */
  method SaveRawPost(ws: Workspace, p: Post, now: real) returns (r: Result<Path>)
    modifies ws
    ensures (ws.disk, r) == SaveRaw(old(ws.disk), p, now)
    ensures ws.db == old(ws.db) && ws.encoderRuns == old(ws.encoderRuns)
  {
    var made := MakeDirs(ws.disk, ["raw"]);
    if made.Err? {
      return Err(made.error);
    }
    ws.disk := made.value;
    if p.comments.Err? {
      return Err(p.comments.error);
    }
    var docs := CollectComments(p.comments.value);
    var payload := Obj([
      Field("id", Str(p.id)), Field("title", Str(p.title)), Field("author", Str(AuthorName(p.author))),
      Field("subreddit", Str(p.subreddit)), Field("score", Int(p.score)),
      Field("num_comments", Int(p.numComments)), Field("created_utc", Float(p.createdUtc)),
      Field("url", Str(p.url)), Field("selftext", Str(p.selftext)), Field("permalink", Str(p.permalink)),
      Field("comments_data", Arr(docs))]);
    var written := WriteFile(ws.disk, RawPath(p.id), Doc(payload), now);
    if written.Err? {
      return Err(written.error);
    }
    ws.disk := written.value;
    return Ok(RawPath(p.id));
  }

  /** One iteration of the loop over a listing's posts. */
  method HarvestOne(ws: Workspace, p: Post, env: Env)
    modifies ws
    ensures ws.State() == HarvestPost(old(ws.State()), p, env)
  {
    if p.id !in ws.db.candidates {
      var saved := SaveRawPost(ws, p, env.now);
      if saved.Ok? {
        var inserted := InsertCandidate(ws.db, p.id, NewCandidate(p, saved.value, env.now), env.faults);
        if inserted.Ok? {
          ws.db := inserted.value;
        }
      }
    }
  }

  /** The loop over the posts of one subreddit. */
  method HarvestBatch(ws: Workspace, posts: seq<Post>, env: Env)
    modifies ws
    ensures ws.State() == HarvestPosts(old(ws.State()), posts, env)
  {
    var j := 0;
    while j < |posts|
      invariant 0 <= j <= |posts|
      invariant ws.State() == HarvestPosts(old(ws.State()), posts[..j], env)
    {
      HarvestOne(ws, posts[j], env);
      assert posts[..j + 1][..j] == posts[..j];
      j := j + 1;
    }
    assert posts[..j] == posts;
  }

  lemma HarvestSubsStep(w: World, reddit: Reddit, subs: seq<string>, i: nat, limit: nat, env: Env)
    requires i < |subs| && HarvestSubs(w, reddit, subs[..i], limit, env).1.Ok?
    ensures var w1 := HarvestSubs(w, reddit, subs[..i], limit, env).0;
      HarvestSubs(w, reddit, subs[..i + 1], limit, env)
        == match Batch(reddit, subs[i], limit)
           case Err(e) => (w1, Err(e))
           case Ok(posts) => (HarvestPosts(w1, posts, env), Ok(()))
  {
    assert subs[..i + 1][..i] == subs[..i];
  }

  /** Once a listing error escapes, the remaining subreddits are not visited. */
  lemma {:induction false} HarvestStopsAtError(w: World, reddit: Reddit, subs: seq<string>, k: nat, limit: nat, env: Env)
    requires k <= |subs| && HarvestSubs(w, reddit, subs[..k], limit, env).1.Err?
    ensures HarvestSubs(w, reddit, subs, limit, env) == HarvestSubs(w, reddit, subs[..k], limit, env)
    decreases |subs| - k
  {
    if k < |subs| {
      assert subs[..k + 1][..k] == subs[..k];
      HarvestStopsAtError(w, reddit, subs, k + 1, limit, env);
    } else {
      assert subs[..k] == subs;
    }
  }

  /** `harvest(subreddits, limit)`. */
  method RunHarvest(ws: Workspace, reddit: Reddit, subs: seq<string>, limit: nat, env: Env) returns (r: Result<()>)
    modifies ws
    ensures (ws.State(), r) == HarvestSubs(old(ws.State()), reddit, subs, limit, env)
  {
    ghost var w0 := ws.State();
    var i := 0;
    while i < |subs|
      invariant 0 <= i <= |subs|
      invariant HarvestSubs(w0, reddit, subs[..i], limit, env) == (ws.State(), Ok(()))
    {
      HarvestSubsStep(w0, reddit, subs, i, limit, env);
      var batch := Batch(reddit, subs[i], limit);
      if batch.Err? {
        HarvestStopsAtError(w0, reddit, subs, i + 1, limit, env);
        return Err(batch.error);
      }
      HarvestBatch(ws, batch.value, env);
      i := i + 1;
    }
    assert subs[..i] == subs;
    return Ok(());
  }
}
