# Reelsmith pipeline — a Dafny model

Reelsmith turns Reddit posts into short narrated videos. A worker runs one
pipeline pass every hour. The pass has seven stages, in this order:

1. harvest new posts into `raw/` and the `candidates` table;
2. score them;
3. extract a sanitised canonical record into `canonical/`;
4. moderate each record with a language model, moving flagged ones to
   `flagged/` and recording them in the `flagged` table;
5. generate a video script per record into `scripts/` and the `scripts` table;
6. synthesise the narration into `output/<id>.wav`;
7. render scene cards into `frames/<id>/` and encode `output/<id>.mp4`.

A retention job deletes old files from the working directories. A small
dashboard lists and resolves flagged posts and lists the rendered videos.
Every language-model call goes through one shared client. The client rotates
through a pool of API keys and retries with back-off.

The model is one Dafny module per source file, plus shared modules:

- `Base`: `Option`, `Result`, and the exceptions the program raises or catches.
- `Text`: the Python string operations the stages use: `strip`,
  `replace(pat, "")`, `join`, `in` on strings, and `f"{i:03d}"`.
- `JsonDoc`: JSON values with ordered dict fields. It gives Python's
  semantics for `d[k]`, `d.get`, `in`, iteration and slicing, and the
  layout of `str()` and `repr()` for numbers, booleans, `None`, lists and
  dicts; a string is rendered between single quotes without escaping.
- `Files`: the workspace tree as a map of files and a set of directories.
  It holds `os.makedirs`, `open(...,"w")`, `json.load`, `os.remove`,
  `shutil.move` and `os.listdir`, each with its failure cases.
- `Db`: the three tables as maps, and the statements the stages run.
- `Store`: the world, which is the tree, the tables and the encoder
  invocations. It also holds the environment of a run: the clock, failing
  statements, undeletable files and encoder exits. The `Workspace` class is
  the world as mutable state.
- `GenAI`: the `GeminiClient` class, with its key cursor and the requests
  and sleeps it has made. Its functions specify each method.
- `Harvest`, `Extract`, `Moderate`, `ScriptGen`, `TtsGen`, `Render`,
  `Retention` and `Dashboard` (the `main.py` endpoints): each stage is a set
  of specification functions over the world plus the methods that run the
  stage on a `Workspace`. Each method is proved equal to its function.
- `Worker`: `run_pipeline`. It is a generic sequence-of-stages runner with
  proved ordering and abort properties. It is instantiated with the seven
  stages and implemented by methods on the shared workspace and client.

The outside world enters as values:

- the language model's replies, indexed by request number;
- the JSON parser's verdict;
- the Reddit listings;
- the regular-expression matchers, as match-length functions;
- the answer of `os.listdir` (its names, in its order), as a `Lister`;
- the clock, failing database statements, files that cannot be deleted, and
  the encoder's exit status.

Every stage runner is specified over an arbitrary listing, in any order and
with any content. Where a property needs the listing to be the directory's
entries, each named once, the lemma says so with `Enumerates`: the dashboard
lemmas and the `…CoversListing` lemmas, which show that each runner visits
every `.json` entry of its directory.

## Model

| member | source | states |
|---|---|---|
| Text.Strip | app/extract.py:28 | The result is a slice of the input with only whitespace outside it, and it has no whitespace at either end |
| Text.StripUnique | app/extract.py:28 | Any slice with only whitespace outside it and no whitespace at its own ends is what `strip` returns |
| Text.StripClean | app/extract.py:28 | Text with no whitespace at either end strips to itself |
| Text.StripIdempotent | app/genai_client.py:75 | Stripping twice is stripping once |
| Text.StripAppendSpace | app/tts_gen.py:25 | Whitespace appended at the end does not change the stripped text |
| Text.RemoveAll | app/genai_client.py:75 | `s.replace(pat, "")` never lengthens the text |
| Text.RemoveAllAbsent | app/extract.py:81 | Deleting a pattern that does not occur returns the text unchanged |
| Text.RemoveAllKeepsHead | app/extract.py:81 | A first character that cannot start the pattern survives the deletion |
| Text.RemoveFenceLeavesNoFence | app/genai_client.py:75 | After every "```" is deleted, no "```" remains, however the backticks were arranged |
| Text.RemoveTrailingPattern | app/extract.py:81 | Text that lacks the pattern's first character, followed by one copy of the pattern, gives back the text |
| Text.NoOpeningMarker | app/genai_client.py:75 | A seven-character marker that begins with a backtick cannot occur in backtick-free text followed by a fence |
| Text.ConcatEachIsJoin | app/tts_gen.py:20-23 | A separator after every piece is the joined pieces plus one trailing separator |
| Text.NatToString | app/render.py:69 | Decimal digits, at least one, with no leading zero |
| Text.NatToStringRoundTrip | app/render.py:69 | The decimal digits read back as the number |
| Text.Pad3 | app/render.py:69 | `f"{i:03d}"` is all digits and at least three characters |
| Text.Pad3RoundTrip | app/render.py:69 | The padded form reads back as the number it was made from |
| Text.Pad3Injective | app/render.py:69 | Distinct scene numbers give distinct padded forms |
| JsonDoc.Find | app/extract.py:43-46 | The lookup fails exactly when no field has the key; a found value is stored under that key |
| JsonDoc.FindFrom | app/extract.py:43-46 | The scan from position `i` finds nothing exactly when no later field has the key |
| JsonDoc.FindFirst | app/extract.py:42-49 | In a dict literal with distinct keys, looking up a key gives the value the literal put there |
| JsonDoc.Index | app/extract.py:43-46 | `d[k]` succeeds exactly for a dict holding `k`; a dict without it raises `KeyError(k)` |
| JsonDoc.Get | app/extract.py:47 | `d.get(k, default)` succeeds exactly on a dict and gives the default when the key is absent |
| JsonDoc.Contains | app/script_gen.py:50 | `k in d` is key membership for a dict and substring for a string; it raises exactly on None, booleans and numbers |
| JsonDoc.Elements | app/extract.py:53 | `for x in d` visits a list's items; it raises exactly on values that are not iterable; it visits nothing exactly when the value is falsy |
| JsonDoc.Head | app/script_gen.py:37 | `d[:n]` keeps the first `n` items or characters; it raises exactly on values that are neither a list nor a string |
| Files.ListDir | app/extract.py:77 | A name is listed exactly when a file or directory sits directly under the directory with that name |
| Files.MakeDirs | app/extract.py:62 | `os.makedirs(exist_ok=True)` fails exactly when a prefix is a file; otherwise it adds every prefix as a directory and nothing else |
| Files.MakeDirsWf | app/extract.py:62 | Making directories keeps the tree well formed |
| Files.WriteFile | app/extract.py:65-66 | Writing fails exactly when the path is a directory or its parent is missing; otherwise only that file is set |
| Files.WriteFileWf | app/extract.py:65-66 | Writing a file keeps the tree well formed |
| Files.WriteIn | app/script_gen.py:61-66 | Make the stage directory, then write `<dir>/<name>`: the directory is made unless a file stands there, and the write succeeds exactly when neither obstacle is present |
| Files.WriteInWf | app/script_gen.py:61-66 | Storing a per-post output keeps the tree well formed |
| Files.ReadJson | app/extract.py:39-40 | `json.load(open(p))` succeeds exactly on a file holding a JSON document and returns that document |
| Files.RemoveFile | app/main.py:117-118 | `os.remove` succeeds exactly on a file and removes only that file |
| Files.RemoveFileWf | app/main.py:117-118 | Removing a file keeps the tree well formed |
| Files.Move | app/moderate.py:59 | `shutil.move` succeeds exactly for an existing file source and a destination that is not a directory, in an existing directory (an existing file there is replaced); the file keeps its content and time, no other file appears, disappears or changes, and moving a file onto itself changes nothing |
| Files.MoveWf | app/moderate.py:59 | Moving a file keeps the tree well formed |
| Files.WithSuffix | app/extract.py:77 | The filter keeps exactly the listed names with the suffix |
| Files.WithSuffixDistinct | app/extract.py:77 | Filtering a listing without repeats gives names without repeats |
| Files.JsonFiles | app/extract.py:77 | Exactly the `.json` names of the listing |
| Files.Stems | app/extract.py:81 | Each id is its file name with every ".json" deleted |
| Files.StemRoundTrip | app/extract.py:81 | An id without a dot is recovered from the name `<id>.json` under which it was saved |
| Files.JsonEntriesListed | app/render.py:121-125 | A listing that names each entry once yields distinct `.json` names, all entries of the directory, with every `.json` entry at a position whose derived id is its stem |
| Files.JsonEntryPosition | app/render.py:121-125 | Gives the position of a `.json` entry among the derived ids, where the id is the entry's stem |
| Db.InsertCandidate | app/harvest.py:82-98 | A plain insert fails on an existing key or a failing statement; otherwise it adds exactly that row |
| Db.UpsertScript | app/script_gen.py:71-83 | `INSERT OR REPLACE` sets exactly the post's row; it fails on a failing statement or a column value sqlite cannot bind |
| Db.UpsertFlag | app/moderate.py:63-66 | `INSERT OR REPLACE` sets exactly the post's flagged row unless the statement fails |
| Db.DeleteFlag | app/main.py:120 | `DELETE` removes the post's row, absent or not, unless the statement fails |
| Store.Workspace.constructor | app/db.py:23-59 | The workspace starts as the given tree, tables and encoder record |
| GenAI.NextKey | app/genai_client.py:31-37 | An empty pool raises and keeps the cursor; otherwise the result is the key under the cursor, and the cursor moves one place on, modulo the pool size, staying in range |
| GenAI.RoundRobin | app/genai_client.py:31-37 | The i-th of m successive calls returns `keys[(cursor + i) mod n]`, and the cursor ends at `(cursor + m) mod n` |
| GenAI.TwoKeyRotation | tests/test_genai_client.py:16-22 | With two keys, three calls hand out key1, key2, key1 |
| GenAI.ContentAttempts | app/genai_client.py:42-65 | The cursor stays in range, and requests are only ever appended |
| GenAI.ContentCallsBounded | app/genai_client.py:46 | At most `retries` requests are made |
| GenAI.ContentRotatesEveryAttempt | app/genai_client.py:46-52 | Every attempt takes the next key, whatever the replies: the requests carry exactly the keys that successive `_get_next_key` calls hand out |
| GenAI.ContentKeysRoundRobin | app/genai_client.py:42-65 | Request j of a call carries `keys[(cursor + j) mod n]`, and the cursor advances by the number of requests |
| GenAI.FirstAnswerReturned | app/genai_client.py:52-53 | A first answer is returned at once, after one request and no sleep |
| GenAI.QuotaThenAnswer | app/genai_client.py:55-58 | A quota error then an answer: two requests with consecutive keys, one 2^0-second sleep, and the answer returned |
| GenAI.Backoffs | app/genai_client.py:57 | The back-off sleeps are 2^attempt for consecutive attempts |
| GenAI.AllQuotaExhausts | app/genai_client.py:55-65 | Quota errors on every attempt sleep 2^attempt each and end with "Failed to generate content after retries." after every attempt |
| GenAI.AllFailuresReraise | app/genai_client.py:59-63 | Other errors on every attempt sleep one second between attempts and re-raise the last attempt's error |
| GenAI.EmptyPoolNeverCalls | app/genai_client.py:32-33 | With no keys, no request is made and the cursor stays put; the pool's error escapes from the last attempt |
| GenAI.ContentOkMeansAnswered | app/genai_client.py:46-63 | Success means the last request was answered with that text and every earlier request of the call was refused |
| GenAI.CleanReply | app/genai_client.py:75 | The cleaned reply has no fence and no whitespace at either end |
| GenAI.FencedReplyRoundTrip | app/genai_client.py:75 | A reply "```json<body>```" with a backtick-free body cleans to the stripped body |
| GenAI.JsonReply | app/genai_client.py:67-81 | `generate_json` keeps the key cursor in range |
| GenAI.ContentErrorKinds | app/genai_client.py:42-65 | `generate_content` raises only "no keys", "retries exhausted" or the service's own failure, never a JSON decoding error |
| GenAI.JsonParsesCleanedAnswer | app/genai_client.py:67-81 | Every request carries the prompt with the JSON instruction appended; the session is the one `generate_content` leaves; an error of `generate_content` is re-raised unchanged; otherwise the cleaned text of the answer that ended the call is parsed, its parse is the result, and a text that does not parse raises `JSONDecodeError`, which happens in no other case |
| GenAI.AudioAttempts | app/genai_client.py:83-127 | `generate_audio` never moves the key cursor and only appends requests |
| GenAI.AudioNeverRotates | app/genai_client.py:94-127 | Every speech request carries the preamble and the text, with no key; at most `retries` are made; a quota error ends the call with a NameError on the undefined name `key` |
| GenAI.GeminiClient.constructor | app/genai_client.py:12-15 | A new client has the loaded pool, cursor 0, and no requests or sleeps |
| GenAI.GeminiClient.TakeKey | app/genai_client.py:31-37 | `_get_next_key` on the client: the key and the new cursor are those of `NextKey`, and nothing else changes |
| GenAI.GeminiClient.GenerateContent | app/genai_client.py:42-65 | The retry loop on the client gives the reply and the session that `Content` specifies |
| GenAI.GeminiClient.GenerateJson | app/genai_client.py:67-81 | `generate_json` on the client is `JsonReply` |
| GenAI.GeminiClient.GenerateAudio | app/genai_client.py:83-127 | `generate_audio` on the client is `Audio` |
| Harvest.SaveRaw | app/harvest.py:23-56 | `save_raw_post` returns `raw/<id>.json` |
| Harvest.RawPayloadKeepsTenComments | app/harvest.py:41-50 | The raw document keeps at most the first ten comments, in listing order, each with its body, author and score |
| Harvest.KnownPostSkipped | app/harvest.py:72-74 | A post already in `candidates` changes nothing |
| Harvest.NewPostRecorded | app/harvest.py:79-99 | A new post gets its raw file and exactly one new row, with score 0.0 and the saved path |
| Harvest.InsertFailureKeepsFile | app/harvest.py:79-102 | A failed insert is caught; it leaves the raw file and no row |
| Harvest.HarvestOnlyInserts | app/harvest.py:66-102 | Harvesting never changes or deletes a candidate row, and never touches the other tables |
| Harvest.DuplicateInRunSkipped | app/harvest.py:69-74 | A post inserted earlier in the same run is skipped |
| Harvest.NewRowsComeFromPosts | app/harvest.py:66-98 | Every new row comes from a post of the run with that id, saved under `raw/<id>.json`, with score 0.0 |
| Harvest.HarvestPostsAppend | app/harvest.py:69 | Harvesting two lists of posts one after the other is harvesting them concatenated |
| Harvest.HarvestOrder | app/harvest.py:66-69 | With every listing fetched, posts are processed subreddit by subreddit in order, the hot listing before the top-of-day one, each cut to `limit` |
| Harvest.OnlyListingErrorsEscape | app/harvest.py:66-102 | Only a listing error escapes `harvest`; a per-post failure is caught |
| Harvest.HarvestSubsStep | app/harvest.py:66-69 | Each further subreddit is visited only while no listing error has escaped |
| Harvest.HarvestStopsAtError | app/harvest.py:66-69 | After a listing error, the remaining subreddits are not visited |
| Harvest.CollectComments | app/harvest.py:43-49 | The comment loop collects the documents of the first ten comments |
| Harvest.SaveRawPost | app/harvest.py:23-56 | `save_raw_post` on the workspace is `SaveRaw` and leaves the tables alone |
| Harvest.HarvestOne | app/harvest.py:70-102 | One loop iteration on the workspace is `HarvestPost` |
| Harvest.HarvestBatch | app/harvest.py:69-102 | The loop over a listing's posts is `HarvestPosts` |
| Harvest.RunHarvest | app/harvest.py:58-105 | `harvest(subreddits, limit)` on the workspace is `HarvestSubs` |
| Extract.Substitute | app/extract.py:19-26 | A substitution that matches nowhere returns the text unchanged |
| Extract.Sanitize | app/extract.py:10-28 | A falsy value gives ""; exactly falsy values and strings succeed; the result has no whitespace at either end |
| Extract.SanitizeClean | app/extract.py:10-28 | Text that no pattern matches, with clean ends, comes back unchanged |
| Extract.Canonical | app/extract.py:42-58 | The record copies `id`, `subreddit` and `author` (as `op`), sanitises `title` and `selftext` (default ""), and converts `comments_data` when present, else gives no comments |
| Extract.RecordDocCopied | app/extract.py:42-49 | The written document gives back the copied fields |
| Extract.RecordDocConverted | app/extract.py:42-49 | The written document gives back the sanitised strings and the comment list |
| Extract.CanonicalCommentOk | app/extract.py:54-58 | A comment converts exactly when it has an author, a sanitisable body and a score |
| Extract.CanonicalCommentFields | app/extract.py:54-58 | A converted comment keeps its author and score and has its body sanitised |
| Extract.ExtractOne | app/extract.py:30-68 | No raw file means None and no change; success writes exactly `canonical/<id>.json` with the converted record; only that file and `canonical/` can change |
| Extract.ExtractRepeatable | app/extract.py:30-68 | Extracting the same post again changes nothing more |
| Extract.ExtractAllWritesCanonical | app/extract.py:80-87 | Extraction never changes a file outside `canonical/` |
| Extract.ExtractAllAt | app/extract.py:80-82 | The id at each position is extracted from the disk the ids before it left |
| Extract.ExtractionCoversListing | app/extract.py:70-82 | When `raw/` is a directory and the listing names each entry once, `extract_canonical` runs on the stem of every `.json` entry, in its turn |
| Extract.ConvertComments | app/extract.py:52-58 | The comment loop is `CanonicalComments` |
| Extract.ExtractCanonical | app/extract.py:30-68 | `extract_canonical` on the workspace is `ExtractOne` and leaves the tables alone |
| Extract.RunExtraction | app/extract.py:70-87 | `run_extraction` on the workspace is `RunExtractionSpec` over the listing of `raw/` |
| Moderate.CommentBlockIsMapAll | app/moderate.py:35-36 | The comment lines are the comments' lines, each computed on its own and run together |
| Moderate.CommentBlockStops | app/moderate.py:35-36 | A comment without `body` makes the whole block raise its error |
| Moderate.ContentOk | app/moderate.py:34-36 | The input can be built exactly when the header fields and `comments` are present and every comment has a `body` |
| Moderate.ContentLines | app/moderate.py:34-36 | The input is the three header lines and then one "Comment: <body>" line per comment, in order |
| Moderate.FlagPost | app/moderate.py:53-68 | `flag_post` changes the tables only when it succeeds; success upserts the row with the reasons, the time and `flagged/<id>.json` |
| Moderate.ModerateOne | app/moderate.py:24-51 | `moderate_post` keeps the key cursor in range |
| Moderate.ModerateRecord | app/moderate.py:30-51 | After the record is read, the key cursor stays in range |
| Moderate.Classify | app/moderate.py:40-51 | Nothing raised inside the `try` escapes |
| Moderate.MissingRecordUntouched | app/moderate.py:26-28 | No canonical file: nothing changes and the model is not asked |
| Moderate.PassedStays | app/moderate.py:44-48 | A reply without a truthy `flag` changes nothing |
| Moderate.FailureBeforeMoveStays | app/moderate.py:40-51 | A client failure, a non-dict reply, or a flag without `reasons` is caught and changes nothing |
| Moderate.FlagMovesAndRecords | app/moderate.py:44-68 | A flag moves the record from `canonical/` to `flagged/` unchanged, and its row holds the reasons and the new path |
| Moderate.RowFailureAfterMove | app/moderate.py:53-68 | If the row write fails after the move, the file is under `flagged/` and the table is unchanged |
| Moderate.DecideFrame | app/moderate.py:40-68 | Moderation touches only the `flagged` table and only the post's two file paths |
| Moderate.ModerateAll | app/moderate.py:79-81 | The loop keeps the key cursor in range |
| Moderate.RunModerationSpec | app/moderate.py:70-81 | `run_moderation` keeps the key cursor in range |
| Moderate.ModerateAllStep | app/moderate.py:79-81 | Each further id is moderated only while nothing has escaped |
| Moderate.ModerationStopsAtError | app/moderate.py:79-81 | After an escaping exception, the remaining ids are not visited |
| Moderate.ModerateAllNext | app/moderate.py:79-81 | After a prefix that raised nothing, the next id's moderation gives the loop's state, and an exception there is the outcome of the whole loop |
| Moderate.ModerateAllAt | app/moderate.py:79-81 | The id at each position is moderated once the ids before it raised nothing, and a run that raised nothing reached it |
| Moderate.ModerationCoversListing | app/moderate.py:70-81 | When `canonical/` is a directory and the listing names each entry once, `moderate_post` runs on the stem of every `.json` entry unless an earlier id raised, and a clean run reached every one |
| Moderate.AppendComments | app/moderate.py:35-36 | The `content +=` loop appends exactly the comment block, or raises its error |
| Moderate.BuildContent | app/moderate.py:34-36 | The content built is `ModerationContent` |
| Moderate.FlagPostIn | app/moderate.py:53-68 | `flag_post` on the workspace is `FlagPost` |
| Moderate.ModeratePost | app/moderate.py:24-51 | `moderate_post` on the workspace and client is `ModerateOne` |
| Moderate.ModerateData | app/moderate.py:30-51 | `moderate_post` after `json.load` is `ModerateRecord` |
| Moderate.ClassifyPost | app/moderate.py:40-51 | The `try` block on the workspace and client is `Classify` |
| Moderate.ModerateIds | app/moderate.py:79-81 | The loop over the ids is `ModerateAll` |
| Moderate.RunModeration | app/moderate.py:70-81 | `run_moderation` is `RunModerationSpec` over the listing of `canonical/` |
| ScriptGen.CommentsTextLines | app/script_gen.py:37 | The comment text is one "- <body>" line for each of the first five comments, joined by newlines; it can be built exactly when each of those has a body |
| ScriptGen.PromptNeedsFields | app/script_gen.py:37-42 | The prompt can be built exactly when the comments render and `title` and `op` exist |
| ScriptGen.HasAllKeys | app/script_gen.py:49-51 | The key check raises exactly on a non-container reply when keys remain to check |
| ScriptGen.DictValidation | app/script_gen.py:49-51 | For a dict, validation is key presence only |
| ScriptGen.ScriptRowOf | app/script_gen.py:71-83 | A row can be made exactly from a dict reply |
| ScriptGen.ScriptRowColumns | app/script_gen.py:75-83 | Each style column holds the replied value or its default (`neutral`, `medium`, "", `minimal`), plus the write time and the whole reply |
| ScriptGen.SaveScript | app/script_gen.py:60-85 | `save_script` changes the tables only when it succeeds; success upserts exactly the post's row; no file but `scripts/<id>.json` changes |
| ScriptGen.GenerateScript | app/script_gen.py:27-58 | `generate_script` keeps the key cursor in range |
| ScriptGen.ScriptFromRecord | app/script_gen.py:36-58 | After the record is read, the key cursor stays in range |
| ScriptGen.AskForScript | app/script_gen.py:44-58 | Nothing raised inside the `try` escapes |
| ScriptGen.MissingRecordSkipped | app/script_gen.py:29-31 | No canonical file: nothing changes and the model is not asked |
| ScriptGen.PromptFailureEscapes | app/script_gen.py:33-42 | A record the prompt cannot be built from raises before the model is asked or anything is written |
| ScriptGen.InvalidReplyStoresNothing | app/script_gen.py:49-51 | A reply missing a required key writes nothing |
| ScriptGen.ValidReplyStored | app/script_gen.py:49-85 | A dict reply with the four keys, with style values sqlite can bind, is written in full and upserted as the post's row |
| ScriptGen.UnbindableReplyKeepsFile | app/script_gen.py:60-85 | A dict reply with the four keys but a list or dict style value is written in full, and the failed upsert is caught with the tables unchanged |
| ScriptGen.RowFailureKeepsFile | app/script_gen.py:60-85 | A failed row write after the file write leaves the file and the tables unchanged |
| ScriptGen.LatestWins | app/script_gen.py:60-85 | A second save replaces the first one's file and row |
| ScriptGen.NoSkipForExistingScript | app/script_gen.py:96-99 | What is asked of the model does not depend on an existing script or row |
| ScriptGen.ScriptAll | app/script_gen.py:96-99 | The loop keeps the key cursor in range |
| ScriptGen.RunScriptGenSpec | app/script_gen.py:87-99 | `run_script_gen` keeps the key cursor in range |
| ScriptGen.ScriptAllStep | app/script_gen.py:96-99 | Each further id is visited only while nothing has escaped |
| ScriptGen.ScriptStopsAtError | app/script_gen.py:96-99 | After an escaping exception, the remaining ids are not visited |
| ScriptGen.ScriptAllAt | app/script_gen.py:96-99 | The id at each position is handled once the ids before it raised nothing, and a run that raised nothing reached it |
| ScriptGen.ScriptGenCoversListing | app/script_gen.py:87-99 | When `canonical/` is a directory and the listing names each entry once, `generate_script` runs on the stem of every `.json` entry unless an earlier id raised, and a clean run reached every one |
| ScriptGen.SaveScriptIn | app/script_gen.py:60-85 | `save_script` on the workspace is `SaveScript` |
| ScriptGen.AskForScriptIn | app/script_gen.py:44-58 | The `try` block on the workspace and client is `AskForScript` |
| ScriptGen.GenerateScriptPost | app/script_gen.py:27-58 | `generate_script` on the workspace and client is `GenerateScript` |
| ScriptGen.ScriptIds | app/script_gen.py:96-99 | The loop over the ids is `ScriptAll` |
| ScriptGen.RunScriptGen | app/script_gen.py:87-99 | `run_script_gen` is `RunScriptGenSpec` over the listing of `canonical/` |
| TtsGen.AccumulatedCollects | app/tts_gen.py:20-23 | When every scene is a dict, the loop collects every scene text in order, each followed by a space |
| TtsGen.NarrationIsJoin | app/tts_gen.py:20-25 | The narration is the scene texts joined by spaces and stripped |
| TtsGen.StripSpaced | app/tts_gen.py:23-25 | Pieces each followed by a space strip to the same text as the pieces joined by spaces |
| TtsGen.AccumulatedFails | app/tts_gen.py:21-23 | The loop raises exactly when some scene does not support `in`, or refuses `scene['text']` after `"text" in scene` |
| TtsGen.AccumulatedStops | app/tts_gen.py:21-23 | Once the loop has raised, later scenes change nothing |
| TtsGen.Speak | app/tts_gen.py:30-52 | The `try` block never raises and never moves the key cursor |
| TtsGen.GenerateTts | app/tts_gen.py:8-52 | `generate_tts` never moves the key cursor |
| TtsGen.MissingScriptSkipped | app/tts_gen.py:12-14 | No script file: nothing changes and the model is not asked |
| TtsGen.EmptyNarrationSkipped | app/tts_gen.py:25-28 | An empty narration: nothing changes and the model is not asked |
| TtsGen.OneSpeechRequest | app/tts_gen.py:30-32 | A non-empty narration is sent in one to three speech requests carrying exactly that narration; the stage returns normally and the cursor stays put |
| TtsGen.WaveWritten | app/tts_gen.py:34-45 | Truthy audio is written to `output/<id>.wav` as mono 16-bit 24 kHz frames, verbatim, and no other file changes |
| TtsGen.FalsyAudioWritesNothing | app/tts_gen.py:34-52 | Falsy audio or a failed request creates no file and no directory |
| TtsGen.TtsAll | app/tts_gen.py:63-65 | The loop never moves the key cursor |
| TtsGen.RunTtsSpec | app/tts_gen.py:54-65 | `run_tts` never moves the key cursor |
| TtsGen.TtsAllStep | app/tts_gen.py:63-65 | Each further id is visited only while nothing has escaped |
| TtsGen.TtsStopsAtError | app/tts_gen.py:63-65 | After an escaping exception, the remaining ids are not visited |
| TtsGen.TtsAllAt | app/tts_gen.py:63-65 | The id at each position is voiced once the ids before it raised nothing, and a run that raised nothing reached it |
| TtsGen.TtsCoversListing | app/tts_gen.py:54-65 | When `scripts/` is a directory and the listing names each entry once, `generate_tts` runs on the stem of every `.json` entry unless an earlier id raised, and a clean run reached every one |
| TtsGen.AccumulateScenes | app/tts_gen.py:20-23 | The scene loop is `Accumulated` |
| TtsGen.NarrationOf | app/tts_gen.py:20-25 | The narration built is `Narration` |
| TtsGen.SpeakIn | app/tts_gen.py:30-52 | The `try` block on the workspace and client is `Speak` |
| TtsGen.GenerateTtsPost | app/tts_gen.py:8-52 | `generate_tts` on the workspace and client is `GenerateTts` |
| TtsGen.TtsIds | app/tts_gen.py:63-65 | The loop over the ids is `TtsAll` |
| TtsGen.RunTts | app/tts_gen.py:54-65 | `run_tts` is `RunTtsSpec` over the listing of `scripts/` |
| Render.ScenePathsDistinct | app/render.py:62-69 | Distinct scene numbers name distinct cards, and none of them is the concat list |
| Render.CardsAt | app/render.py:65-70 | Every scene gets its own card, holding its text or "" |
| Render.CardsOnly | app/render.py:65-70 | There are no cards but those of the scenes |
| Render.SceneFrameOk | app/render.py:65-77 | A renderable scene whose card path is free gets its card and its `file` and `duration` lines |
| Render.SceneFramesRunThrough | app/render.py:65-77 | With renderable scenes, the loop adds exactly the cards, and writes a `file` and `duration` pair per scene in order |
| Render.LinesExtend | app/render.py:76-77 | One more scene's pair keeps the earlier lines in place |
| Render.SceneFramesStop | app/render.py:65-77 | Once the loop has raised, later scenes change nothing |
| Render.StoryboardShape | app/render.py:64-86 | For n > 0 scenes, the concat list has 2n + 1 lines: a pair per scene, then the last card again; for no scenes it has none |
| Render.FramesReady | app/render.py:59-64 | Making `frames/<id>` and opening the concat list succeed when no file stands in the way |
| Render.FramesDrawn | app/render.py:59-86 | For a renderable script, `frames/<id>` holds a card per scene and the concat list of that shape |
| Render.GenerateVideo | app/render.py:42-113 | Rendering never touches the tables |
| Render.MissingInputSkipped | app/render.py:48-53 | Without the script or the narration, nothing is drawn, written or encoded |
| Render.VideoEncoded | app/render.py:88-113 | With the frames drawn, the encoder is invoked exactly once with the concat list, the narration and `output/<id>.mp4`; only a missing encoder raises; no file but the video changes |
| Render.EncoderOutcome | app/render.py:109-113 | A zero exit leaves the video, replacing any earlier one; a non-zero exit is caught and leaves the tree unchanged |
| Render.RenderAll | app/render.py:124-126 | The loop never touches the tables |
| Render.RunRenderSpec | app/render.py:115-126 | `run_render` never touches the tables |
| Render.RenderAllStep | app/render.py:124-126 | Each further id is rendered only while nothing has escaped |
| Render.RenderStopsAtError | app/render.py:124-126 | After an escaping exception, the remaining ids are not visited |
| Render.RenderAllAt | app/render.py:124-126 | The id at each position is rendered once the ids before it raised nothing, and a run that raised nothing reached it |
| Render.RenderCoversListing | app/render.py:115-126 | When `scripts/` is a directory and the listing names each entry once, `generate_video` runs on the stem of every `.json` entry unless an earlier id raised, and a clean run reached every one |
| Render.RenderScenes | app/render.py:65-77 | The scene loop on the workspace is `SceneFrames` |
| Render.StoryboardIn | app/render.py:64-86 | The `with` block on the workspace is `Storyboard` |
| Render.DrawFramesIn | app/render.py:59-86 | Drawing the frames on the workspace is `DrawFrames` |
| Render.EncodeIn | app/render.py:109-113 | The encoder call on the workspace is `Encode` |
| Render.GenerateVideoPost | app/render.py:42-113 | `generate_video` on the workspace is `GenerateVideo` |
| Render.RenderIds | app/render.py:124-126 | The loop over the ids is `RenderAll` |
| Render.RunRender | app/render.py:115-126 | `run_render` is `RunRenderSpec` over the listing of `scripts/` |
| Retention.SweepRootEffect | app/retention.py:20-45 | A file is deleted exactly when it lies below the directory, is older than the cutoff, and its removal is allowed; a directory goes exactly when it lies below and no file is left under it; the count is the number of files deleted |
| Retention.SweepRootFrame | app/retention.py:20-45 | The sweep of a directory leaves everything outside it alone |
| Retention.SweepRootWf | app/retention.py:20-45 | A sweep keeps the tree well formed |
| Retention.NoEmptyNoHollow | app/retention.py:38-45 | Once no directory below is empty, none is left without files |
| Retention.SweepAllFiles | app/retention.py:20-35 | Over all swept directories, a file is deleted exactly when it lies below one of them, is older than the cutoff, and its removal is allowed; the count matches |
| Retention.SweepAllDirs | app/retention.py:20-45 | Over all swept directories, a directory is removed exactly when it lies strictly below one and has no file left; the swept directories themselves stay |
| Retention.CleanupEffect | app/retention.py:7-47 | The whole cleanup: tables untouched, files and directories go exactly as above, and the tree stays well formed |
| Retention.CleanupSparesFlagged | app/retention.py:14 | Nothing in `flagged/` or at the top level is touched |
| Retention.CleanupKeepsRecent | app/retention.py:15-16 | A file at or after the cutoff is kept unchanged |
| Retention.DeleteIfOld | app/retention.py:28-35 | One file: it is deleted exactly when older than the cutoff and its removal is allowed; otherwise nothing changes |
| Retention.DeleteExpired | app/retention.py:27-35 | The files loop removes exactly the expired files and counts them |
| Retention.RemoveHollow | app/retention.py:38-45 | The directories loop removes exactly the directories below the root that have no file left under them |
| Retention.SweepIn | app/retention.py:20-45 | The walk over one directory is `SweepRoot` |
| Retention.CleanupWorkspace | app/retention.py:7-47 | `cleanup_workspace` on the workspace is `Cleanup` |
| Retention.RunRetention | app/retention.py:49-51 | `run_retention` is the cleanup with 168 hours |
| Dashboard.Rows | app/main.py:103-104 | The scan yields exactly the stored rows of the listed ids |
| Dashboard.SortLatestSortsAndPermutes | app/main.py:103 | `ORDER BY flagged_at DESC` orders latest first and keeps exactly the rows it was given |
| Dashboard.GetFlaggedListsAll | app/main.py:99-106 | `get_flagged` lists every flagged row exactly once, with its stored columns, latest first |
| Dashboard.ResolveEffect | app/main.py:108-123 | Only the post's flagged row is deleted; only its stored file is removed, and only when the row names an existing path; the reply is "resolved" unless the removal or the delete raised |
| Dashboard.ResolveUnknown | app/main.py:108-123 | Resolving an unknown id changes nothing and still answers "resolved" |
| Dashboard.ResolveIdempotent | app/main.py:108-123 | Resolving twice is resolving once |
| Dashboard.ResolveFlagIn | app/main.py:108-123 | `resolve_flag` on the workspace is `ResolveFlag` |
| Dashboard.GetOutputsVideos | app/main.py:125-130 | `get_outputs` lists each `.mp4` entry of `output/` once and nothing else; it raises exactly when `output` is a file |
| Worker.RunStages | app/worker.py:17-42 | The stages called are a prefix of the order: all of them when none raised, at least one when one did |
| Worker.RunStagesStep | app/worker.py:17-40 | The next stage runs exactly when none before it raised |
| Worker.RunStagesStopsAtError | app/worker.py:17-42 | Once a stage has raised, no later stage runs and nothing else changes |
| Worker.PipelineOrder | app/worker.py:17-40 | A clean run calls the seven stages once each in the fixed order; a failed run calls a non-empty prefix; no stage is called twice |
| Worker.PipelineAborts | app/worker.py:17-42 | If stage k raises after the first k returned, exactly k + 1 stages ran, that error is logged, and the state is what stage k left |
| Worker.HarvestStep | app/worker.py:18-19 | Step 1 reaches the first stage of the run |
| Worker.ScoringStep | app/worker.py:21-22 | Step 2 extends the run by `run_scoring` |
| Worker.ExtractionStep | app/worker.py:24-25 | Step 3 extends the run by `run_extraction` |
| Worker.ModerationStep | app/worker.py:27-28 | Step 4 extends the run by `run_moderation` |
| Worker.ScriptStep | app/worker.py:30-31 | Step 5 extends the run by `run_script_gen` |
| Worker.SpeechStep | app/worker.py:33-34 | Step 6 extends the run by `run_tts` |
| Worker.RenderStep | app/worker.py:36-37 | Step 7 extends the run by `run_render` |
| Worker.FromHarvest | app/worker.py:17-42 | The `try` block from step 1 is `RunStages` over the seven stages |
| Worker.FromScoring | app/worker.py:21-42 | The `try` block from step 2 on finishes the run `RunStages` specifies |
| Worker.FromExtraction | app/worker.py:24-42 | The `try` block from step 3 on finishes the run `RunStages` specifies |
| Worker.FromModeration | app/worker.py:27-42 | The `try` block from step 4 on finishes the run `RunStages` specifies |
| Worker.FromScripting | app/worker.py:30-42 | The `try` block from step 5 on finishes the run `RunStages` specifies |
| Worker.FromSpeech | app/worker.py:33-42 | The `try` block from step 6 on finishes the run `RunStages` specifies |
| Worker.FromRendering | app/worker.py:36-42 | The last step finishes the run `RunStages` specifies |
| Worker.RunPipeline | app/worker.py:14-42 | `run_pipeline` on the workspace and the shared client is `Pipeline`; it never raises |

## Left out

- `GeminiClient._load_keys` (app/genai_client.py:17-29) reads a file or an environment variable. The constructor takes the loaded pool as a parameter instead.
- The Google SDK, PRAW, sqlite3, PIL and `textwrap`, `wave` and ffmpeg are left out. Replies, listings, statement failures and encoder exits are parameters. A card is its text. A WAV file is its format and frames, not its RIFF bytes. A video is the pair of inputs it was made from.
- Real sleeps are recorded as their durations in the session, not performed. Logging and `print` are left out.
- The regular expressions of `sanitize_text` are parameters: match-length functions with the source's markers. Their languages are not modelled.
- `run_scoring` (app/score.py) is an opaque stage in `Worker.Inputs.scoring` that changes the world and may raise. Its arithmetic is not modelled.
- `start_worker` (app/worker.py:44-53): the hourly schedule loop never ends, so only one `run_pipeline` pass is modelled.
- The FastAPI app, its HTML pages and the static mounts of app/main.py are left out. So are `diagnose_auth.py` and `test_auth.py`.
- `os.path.abspath` is left out: concat lines hold the workspace-relative card path.
- `data_path` and every other stored path is a path relative to the workspace root.
- `Files.Move` models `shutil.move` only onto a path that is not a directory. Moving into an existing directory is a refusal in the model.
- Post ids are taken to hold no "/" separator. `Files.StemRoundTrip` needs the id to hold no ".".
- `JsonDoc.Repr`/`JsonDoc.Display` render a float only by its sign and value class, not by Python's shortest round-trip digits.
- JsonDoc.Repr: puts every string between single quotes as it is. Python's `repr` switches to double quotes for a string holding `'` and no `"`, and escapes backslashes, newlines and control characters; the model does neither, so a post text with such characters reaches the moderation prompt differently.
- JsonDoc.Find: returns the value of the first field with a key, while `json.loads` keeps the last of duplicate keys; documents with duplicate keys are not modelled faithfully.
- Db.Bindable: accepts any integer, while sqlite3 raises `OverflowError` for an integer outside 64 bits.
- Harvest.HarvestPost: has no fault for the `SELECT` that checks whether a candidate exists (app/harvest.py:72); only saving the raw file and the `INSERT` can fail.
- Render.EncoderOutcome: a failed encoder run leaves no partial output in the model.
- Retention.RemoveHollow removes one empty directory below the root at a time, in no fixed order, rather than in `os.walk`'s bottom-up order. It reaches the same end state. An `os.rmdir` failure is not modelled.
- Retention.CleanupWorkspace returns `deleted_count`, which the source only logs.
- Each pipeline pass sees one environment: one clock reading, one set of failing statements and one encoder behaviour.
- Worker.ModerationStage and Worker.ScriptStage guard on the client's key cursor being in range. A `GeminiClient` always keeps it in range, so the guard only makes the functions total.
- Dashboard.GetFlaggedListsAll does not fix the order of rows with equal `flagged_at`, which sqlite leaves unspecified.
- The answer of `os.listdir` is the `Lister` parameter, and the runners are specified over any listing it gives. Only the dashboard lemmas and the `…CoversListing` lemmas require, through `Files.Enumerates`, that a listing names each entry of the directory once.
