/** The three sqlite tables, each keyed by its `post_id` primary key, and
    the statements the stages issue against them. */
module Db {
  import opened Base
  import opened JsonDoc

  datatype Table = Candidates | Scripts | Flagged

  /** A harvested post: `candidates(subreddit, title, op, upvotes, comments,
      fetched_at, age_hours, score, raw_path)`. */
  datatype Candidate = Candidate(
    subreddit: string, title: string, op: string, upvotes: int, comments: int,
    fetchedAt: real, ageHours: real, score: real, rawPath: Path)

  /** `scripts(tone, pacing, cta, caption_style, generated_at, script_json)`;
      the four style columns hold whatever the model replied. */
  datatype ScriptRow = ScriptRow(
    tone: Json, pacing: Json, cta: Json, captionStyle: Json,
    generatedAt: real, scriptJson: Json)

  /** `flagged(reason, flagged_at, data_path)`; `reason` is the JSON text of
      the classifier's reasons, kept here as the value it encodes. */
  datatype FlagRow = FlagRow(reason: Json, flaggedAt: real, dataPath: Path)

  datatype Tables = Tables(
    candidates: map<string, Candidate>,
    scripts: map<string, ScriptRow>,
    flagged: map<string, FlagRow>)

  /** Statements that fail (a locked or broken database) for a table and a
      post id; a failed statement changes nothing. */
  type Faults = set<(Table, string)>

  /** sqlite3 binds None, numbers and strings; a list or dict parameter is
      refused before the statement runs. */
  predicate Bindable(j: Json) {
    !(j.Arr? || j.Obj?)
  }

  /** A plain `INSERT INTO candidates`: fails on an existing key. */
  function InsertCandidate(t: Tables, id: string, row: Candidate, faults: Faults): (r: Result<Tables>)
    ensures r.Ok? <==> id !in t.candidates && (Candidates, id) !in faults
    ensures r.Ok? ==> r.value == t.(candidates := t.candidates[id := row])
  {
    if id in t.candidates || (Candidates, id) in faults then Err(DbError(id))
    else Ok(t.(candidates := t.candidates[id := row]))
  }

  /** `INSERT OR REPLACE INTO scripts`. */
  function UpsertScript(t: Tables, id: string, row: ScriptRow, faults: Faults): (r: Result<Tables>)
    ensures r.Ok? <==> (Scripts, id) !in faults
                       && Bindable(row.tone) && Bindable(row.pacing) && Bindable(row.cta) && Bindable(row.captionStyle)
    ensures r.Ok? ==> r.value == t.(scripts := t.scripts[id := row])
  {
    if (Scripts, id) in faults
       || !(Bindable(row.tone) && Bindable(row.pacing) && Bindable(row.cta) && Bindable(row.captionStyle))
    then Err(DbError(id))
    else Ok(t.(scripts := t.scripts[id := row]))
  }

  /** `INSERT OR REPLACE INTO flagged`. */
  function UpsertFlag(t: Tables, id: string, row: FlagRow, faults: Faults): (r: Result<Tables>)
    ensures r.Ok? <==> (Flagged, id) !in faults
    ensures r.Ok? ==> r.value == t.(flagged := t.flagged[id := row])
  {
    if (Flagged, id) in faults then Err(DbError(id))
    else Ok(t.(flagged := t.flagged[id := row]))
  }

  /** `DELETE FROM flagged WHERE post_id = ?`: deleting an absent row is not an error. */
  function DeleteFlag(t: Tables, id: string, faults: Faults): (r: Result<Tables>)
    ensures r.Ok? <==> (Flagged, id) !in faults
    ensures r.Ok? ==> r.value == t.(flagged := t.flagged - {id})
  {
    if (Flagged, id) in faults then Err(DbError(id))
    else Ok(t.(flagged := t.flagged - {id}))
  }
}
