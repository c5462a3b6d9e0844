/** The resilient client for the generative service: a round-robin pool of
    API keys with a persistent cursor, a bounded retry loop that backs off
    exponentially on quota errors and once per second on any other error, a
    JSON helper that strips Markdown code fences before parsing, and the
    speech call. The service is an oracle: the reply to the n-th call the
    client ever makes is `remote.replies(n)`. */
module GenAI {
  import opened Base
  import opened Text
  import opened JsonDoc

  const DefaultModel := "gemini-2.0-flash"
  const SpeechModel := "gemini-2.5-flash-preview-tts"
  const JsonInstruction := "\n\nOutput strictly valid JSON."
  const SpeechPreamble := "Read the following text clearly and naturally:\n\n"
  const DefaultRetries := 3

  /** One request sent to the service. The speech request names no key: it
      goes out with whatever key the SDK was last configured with. */
  datatype Call = Call(model: string, key: Option<string>, prompt: string)

  /** What one request yields: an answer (its text, and the data of its first
      audio part if it has one), a quota error (`ResourceExhausted`), or any
      other failure. */
  datatype Reply = Answer(text: string, audio: Option<seq<bv8>>) | Quota | Failure(message: string)

  /** The service's replies, and `json.loads` (text to a document, or None
      when the text is not JSON). */
  datatype Remote = Remote(replies: nat -> Reply, parse: string -> Option<Json>)

  /** The client's mutable state as a value: the key cursor, every request
      made so far, and every sleep taken, in seconds. */
  datatype Session = Session(cursor: nat, calls: seq<Call>, sleeps: seq<nat>)

  predicate CursorOk(keys: seq<string>, cursor: nat) {
    if keys == [] then cursor == 0 else cursor < |keys|
  }

  function Pow2(n: nat): nat {
    if n == 0 then 1 else 2 * Pow2(n - 1)
  }

  /** `_get_next_key`: the key under the cursor, and the cursor advanced by
      one modulo the pool size; an empty pool raises and keeps the cursor. */
  function NextKey(keys: seq<string>, cursor: nat): (r: (Result<string>, nat))
    requires CursorOk(keys, cursor)
    ensures CursorOk(keys, r.1)
    ensures keys == [] ==> r == (Err(NoApiKeys), cursor)
    ensures keys != [] ==> r.0 == Ok(keys[cursor]) && r.1 == (cursor + 1) % |keys|
  {
    if keys == [] then (Err(NoApiKeys), cursor)
    else (Ok(keys[cursor]), (cursor + 1) % |keys|)
  }

  /** The keys `m` successive `_get_next_key` calls hand out from `cursor`,
      with the cursor they leave. */
  function KeysHandedOut(keys: seq<string>, cursor: nat, m: nat): (r: (seq<string>, nat))
    requires keys != [] && CursorOk(keys, cursor)
    ensures |r.0| == m && CursorOk(keys, r.1)
    decreases m
  {
    if m == 0 then ([], cursor)
    else
      var (k, c) := NextKey(keys, cursor);
      var (rest, c2) := KeysHandedOut(keys, c, m - 1);
      ([k.value] + rest, c2)
  }

  /** The i-th of successive calls returns `keys[(cursor + i) mod n]`, and the
      cursor ends `m` places further on, modulo n: it is never reset. */
  lemma {:induction false} RoundRobin(keys: seq<string>, cursor: nat, m: nat)
    requires keys != [] && CursorOk(keys, cursor)
    ensures KeysHandedOut(keys, cursor, m).1 == (cursor + m) % |keys|
    ensures forall i :: 0 <= i < m ==> KeysHandedOut(keys, cursor, m).0[i] == keys[(cursor + i) % |keys|]
    decreases m
  {
    var n := |keys|;
    ModUnique(cursor, 0, cursor, n);
    if m > 0 {
      var c := (cursor + 1) % n;
      RoundRobin(keys, c, m - 1);
      ModAdd(cursor + 1, m - 1, n);
      var hand := KeysHandedOut(keys, cursor, m).0;
      forall i | 0 < i < m ensures hand[i] == keys[(cursor + i) % n] {
        ModAdd(cursor + 1, i - 1, n);
      }
    }
  }

  /** The quotient and remainder of a division are the only ones that fit. */
  lemma ModUnique(a: int, q: int, r: int, n: int)
    requires n > 0 && 0 <= r < n && a == q * n + r
    ensures a % n == r
  {
    var d := q - a / n;
    assert d * n == a % n - r;
    assert d >= 1 ==> d * n >= n;
    assert d <= -1 ==> d * n <= -n;
  }

  lemma ModAdd(a: nat, b: nat, n: nat)
    requires n > 0
    ensures (a % n + b) % n == (a + b) % n
  {
    var q, r := a / n, a % n;
    var q2, r2 := (r + b) / n, (r + b) % n;
    assert a + b == (q + q2) * n + r2;
    ModUnique(a + b, q + q2, r2, n);
  }

  /** With two keys, three successive calls hand out key1, key2, key1. */
  lemma TwoKeyRotation()
    ensures KeysHandedOut(["key1", "key2"], 0, 3).0 == ["key1", "key2", "key1"]
  {
    RoundRobin(["key1", "key2"], 0, 3);
  }

  // ---------------------------------------------------------------------
  // generate_content

  /** `generate_content(prompt, retries)` from attempt `attempt` on, as a
      function of the session: each attempt takes the next key (an empty pool
      raises inside the attempt) and makes one request. A quota error sleeps
      2^attempt seconds and moves on; any other error is re-raised on the
      last attempt and otherwise sleeps one second; when the attempts run
      out, "Failed to generate content after retries." is raised. */
  function ContentAttempts(keys: seq<string>, remote: Remote, prompt: string, retries: int,
                           attempt: nat, s: Session): (r: (Session, Result<string>))
    requires CursorOk(keys, s.cursor)
    ensures CursorOk(keys, r.0.cursor)
    ensures |s.calls| <= |r.0.calls| && r.0.calls[..|s.calls|] == s.calls
    decreases retries - attempt
  {
    if attempt >= retries then (s, Err(ContentExhausted))
    else
      var (k, c) := NextKey(keys, s.cursor);
      match k
      case Err(e) =>
        if attempt == retries - 1 then (s, Err(e))
        else ContentAttempts(keys, remote, prompt, retries, attempt + 1, s.(sleeps := s.sleeps + [1]))
      case Ok(key) =>
        var s1 := s.(cursor := c, calls := s.calls + [Call(DefaultModel, Some(key), prompt)]);
        match remote.replies(|s.calls|)
        case Answer(text, _) => (s1, Ok(text))
        case Quota =>
          ContentAttempts(keys, remote, prompt, retries, attempt + 1, s1.(sleeps := s1.sleeps + [Pow2(attempt)]))
        case Failure(m) =>
          if attempt == retries - 1 then (s1, Err(RemoteError(m)))
          else ContentAttempts(keys, remote, prompt, retries, attempt + 1, s1.(sleeps := s1.sleeps + [1]))
  }

  function Content(keys: seq<string>, remote: Remote, prompt: string, retries: int, s: Session): (Session, Result<string>)
    requires CursorOk(keys, s.cursor)
  {
    ContentAttempts(keys, remote, prompt, retries, 0, s)
  }

  function Max0(i: int): nat { if i < 0 then 0 else i }

  /** The requests one `generate_content` call makes with the keys `ks`. */
  function KeyedCalls(ks: seq<string>, prompt: string): (r: seq<Call>)
    ensures |r| == |ks|
  {
    seq(|ks|, i requires 0 <= i < |ks| => Call(DefaultModel, Some(ks[i]), prompt))
  }

  /** At most `retries - attempt` requests are made. */
  lemma {:induction false} ContentCallsBounded(keys: seq<string>, remote: Remote, prompt: string,
                                               retries: int, attempt: nat, s: Session)
    requires CursorOk(keys, s.cursor)
    ensures |ContentAttempts(keys, remote, prompt, retries, attempt, s).0.calls| - |s.calls| <= Max0(retries - attempt)
    decreases retries - attempt
  {
    if attempt < retries {
      var (k, c) := NextKey(keys, s.cursor);
      if k.Err? {
        if attempt != retries - 1 {
          ContentCallsBounded(keys, remote, prompt, retries, attempt + 1, s.(sleeps := s.sleeps + [1]));
        }
      } else {
        var s1 := s.(cursor := c, calls := s.calls + [Call(DefaultModel, Some(k.value), prompt)]);
        var reply := remote.replies(|s.calls|);
        if reply.Quota? || (reply.Failure? && attempt != retries - 1) {
          ContentCallsBounded(keys, remote, prompt, retries, attempt + 1,
                              s1.(sleeps := s1.sleeps + [if reply.Quota? then Pow2(attempt) else 1]));
        }
      }
    }
  }

  /** The requests made carry exactly the keys that as many successive
      `_get_next_key` calls hand out, whatever the replies were, and the
      cursor ends where those calls leave it. */
  lemma {:induction false} ContentRotatesEveryAttempt(keys: seq<string>, remote: Remote, prompt: string,
                                                      retries: int, attempt: nat, s: Session)
    requires keys != [] && CursorOk(keys, s.cursor)
    ensures HandedOutAfter(keys, prompt, s, ContentAttempts(keys, remote, prompt, retries, attempt, s).0)
    decreases retries - attempt
  {
    var s2 := ContentAttempts(keys, remote, prompt, retries, attempt, s).0;
    if attempt < retries {
      var k := keys[s.cursor];
      var c := (s.cursor + 1) % |keys|;
      var s1 := s.(cursor := c, calls := s.calls + [Call(DefaultModel, Some(k), prompt)]);
      var reply := remote.replies(|s.calls|);
      if reply.Quota? || (reply.Failure? && attempt != retries - 1) {
        var s1' := s1.(sleeps := s1.sleeps + [if reply.Quota? then Pow2(attempt) else 1]);
        assert s2 == ContentAttempts(keys, remote, prompt, retries, attempt + 1, s1').0;
        ContentRotatesEveryAttempt(keys, remote, prompt, retries, attempt + 1, s1');
        HandedOutStep(keys, prompt, s, s1', s2);
      } else {
        assert s2 == s1;
        HandOutFirst(keys, s.cursor, 1);
        KeyedCallsCons(k, [], prompt);
      }
    } else {
      assert s2 == s;
    }
  }

  /** The session `s2` holds, after those of `s`, the requests made with the
      keys successive `_get_next_key` calls hand out from `s`'s cursor, and
      the cursor those calls leave. */
  ghost predicate HandedOutAfter(keys: seq<string>, prompt: string, s: Session, s2: Session)
    requires keys != [] && CursorOk(keys, s.cursor)
  {
    && |s.calls| <= |s2.calls|
    && s2.calls == s.calls + KeyedCalls(KeysHandedOut(keys, s.cursor, |s2.calls| - |s.calls|).0, prompt)
    && s2.cursor == KeysHandedOut(keys, s.cursor, |s2.calls| - |s.calls|).1
  }

  lemma HandedOutStep(keys: seq<string>, prompt: string, s: Session, s1: Session, s2: Session)
    requires keys != [] && CursorOk(keys, s.cursor) && CursorOk(keys, s1.cursor)
    requires s1.cursor == (s.cursor + 1) % |keys|
    requires s1.calls == s.calls + [Call(DefaultModel, Some(keys[s.cursor]), prompt)]
    requires HandedOutAfter(keys, prompt, s1, s2)
    ensures HandedOutAfter(keys, prompt, s, s2)
  {
    var m := |s2.calls| - |s.calls|;
    HandOutFirst(keys, s.cursor, m);
    KeyedCallsCons(keys[s.cursor], KeysHandedOut(keys, s1.cursor, m - 1).0, prompt);
  }

  lemma {:induction false} HandOutFirst(keys: seq<string>, cursor: nat, m: nat)
    requires keys != [] && CursorOk(keys, cursor) && m > 0
    ensures KeysHandedOut(keys, cursor, m)
         == ([keys[cursor]] + KeysHandedOut(keys, (cursor + 1) % |keys|, m - 1).0,
             KeysHandedOut(keys, (cursor + 1) % |keys|, m - 1).1)
  {
  }

  lemma KeyedCallsCons(k: string, ks: seq<string>, prompt: string)
    ensures KeyedCalls([k] + ks, prompt) == [Call(DefaultModel, Some(k), prompt)] + KeyedCalls(ks, prompt)
  {
  }

  /** Rotation on every attempt, spelled out: at most `retries` requests are
      made, the i-th of them carries `keys[(cursor + i) mod n]`, and the
      cursor advances by the number of requests, modulo n. */
  lemma ContentKeysRoundRobin(keys: seq<string>, remote: Remote, prompt: string, retries: int, s: Session)
    requires CursorOk(keys, s.cursor) && keys != []
    ensures var (s2, _) := Content(keys, remote, prompt, retries, s);
      && |s.calls| <= |s2.calls| <= |s.calls| + Max0(retries)
      && s2.cursor == (s.cursor + (|s2.calls| - |s.calls|)) % |keys|
      && forall j :: |s.calls| <= j < |s2.calls| ==>
           s2.calls[j] == Call(DefaultModel, Some(keys[(s.cursor + (j - |s.calls|)) % |keys|]), prompt)
  {
    ContentCallsBounded(keys, remote, prompt, retries, 0, s);
    ContentRotatesEveryAttempt(keys, remote, prompt, retries, 0, s);
    var s2 := Content(keys, remote, prompt, retries, s).0;
    var m := |s2.calls| - |s.calls|;
    RoundRobin(keys, s.cursor, m);
    var ks := KeysHandedOut(keys, s.cursor, m).0;
    forall j | |s.calls| <= j < |s2.calls|
      ensures s2.calls[j] == Call(DefaultModel, Some(keys[(s.cursor + (j - |s.calls|)) % |keys|]), prompt)
    {
      assert s2.calls[j] == KeyedCalls(ks, prompt)[j - |s.calls|];
    }
  }

  /** The first request's answer is returned at once: one request, no sleep. */
  lemma FirstAnswerReturned(keys: seq<string>, remote: Remote, prompt: string, retries: int, s: Session)
    requires CursorOk(keys, s.cursor) && keys != [] && retries >= 1
    requires remote.replies(|s.calls|).Answer?
    ensures var (s2, r) := Content(keys, remote, prompt, retries, s);
      && r == Ok(remote.replies(|s.calls|).text)
      && s2.calls == s.calls + [Call(DefaultModel, Some(keys[s.cursor]), prompt)]
      && s2.sleeps == s.sleeps
  {
  }

  /** A quota error followed by an answer: the answer is returned after
      exactly two requests with consecutive keys and one one-second sleep. */
  lemma {:induction false} QuotaThenAnswer(keys: seq<string>, remote: Remote, prompt: string, retries: int, s: Session)
    requires CursorOk(keys, s.cursor) && keys != [] && retries >= 2
    requires remote.replies(|s.calls|) == Quota && remote.replies(|s.calls| + 1).Answer?
    ensures var (s2, r) := Content(keys, remote, prompt, retries, s);
      && r == Ok(remote.replies(|s.calls| + 1).text)
      && s2.calls == s.calls + [Call(DefaultModel, Some(keys[s.cursor]), prompt),
                                Call(DefaultModel, Some(keys[(s.cursor + 1) % |keys|]), prompt)]
      && s2.sleeps == s.sleeps + [1]
  {
    var c := (s.cursor + 1) % |keys|;
    var s1 := s.(cursor := c, calls := s.calls + [Call(DefaultModel, Some(keys[s.cursor]), prompt)],
                 sleeps := s.sleeps + [Pow2(0)]);
    assert Content(keys, remote, prompt, retries, s) == ContentAttempts(keys, remote, prompt, retries, 1, s1);
    assert |s1.calls| == |s.calls| + 1;
  }

  /** The sleeps after `count` quota errors from attempt `from` on: 2^from,
      2^(from+1), ... */
  function Backoffs(from: nat, count: nat): (r: seq<nat>)
    ensures |r| == count
    ensures forall i :: 0 <= i < count ==> r[i] == Pow2(from + i)
    decreases count
  {
    if count == 0 then [] else [Pow2(from)] + Backoffs(from + 1, count - 1)
  }

  /** Quota errors on every attempt never escape as such: each one sleeps
      2^attempt seconds, and the call ends with "Failed to generate content
      after retries." after exactly the remaining attempts. */
  lemma {:induction false} AllQuotaExhausts(keys: seq<string>, remote: Remote, prompt: string, retries: int,
                                            attempt: nat, s: Session)
    requires CursorOk(keys, s.cursor) && keys != []
    requires forall j :: |s.calls| <= j < |s.calls| + Max0(retries - attempt) ==> remote.replies(j) == Quota
    ensures var (s2, r) := ContentAttempts(keys, remote, prompt, retries, attempt, s);
      && r == Err(ContentExhausted)
      && |s2.calls| == |s.calls| + Max0(retries - attempt)
      && s2.sleeps == s.sleeps + Backoffs(attempt, Max0(retries - attempt))
    decreases retries - attempt
  {
    if attempt < retries {
      var c := (s.cursor + 1) % |keys|;
      var s1 := s.(cursor := c, calls := s.calls + [Call(DefaultModel, Some(keys[s.cursor]), prompt)],
                   sleeps := s.sleeps + [Pow2(attempt)]);
      AllQuotaExhausts(keys, remote, prompt, retries, attempt + 1, s1);
    }
  }

  /** A non-quota failure on every attempt: one-second sleeps between the
      attempts, and the last attempt's error re-raised. */
  lemma {:induction false} AllFailuresReraise(keys: seq<string>, remote: Remote, prompt: string, retries: int,
                                              attempt: nat, s: Session)
    requires CursorOk(keys, s.cursor) && keys != [] && attempt < retries
    requires forall j :: |s.calls| <= j < |s.calls| + (retries - attempt) ==> remote.replies(j).Failure?
    ensures var (s2, r) := ContentAttempts(keys, remote, prompt, retries, attempt, s);
      && |s2.calls| == |s.calls| + (retries - attempt)
      && r == Err(RemoteError(remote.replies(|s2.calls| - 1).message))
      && s2.sleeps == s.sleeps + seq(retries - attempt - 1, i => 1)
    decreases retries - attempt
  {
    var c := (s.cursor + 1) % |keys|;
    var s1 := s.(cursor := c, calls := s.calls + [Call(DefaultModel, Some(keys[s.cursor]), prompt)]);
    if attempt < retries - 1 {
      var s1' := s1.(sleeps := s1.sleeps + [1]);
      AllFailuresReraise(keys, remote, prompt, retries, attempt + 1, s1');
      assert [1] + seq(retries - (attempt + 1) - 1, i => 1) == seq(retries - attempt - 1, i => 1);
    } else {
      assert seq(retries - attempt - 1, i => 1) == [];
    }
  }

  /** An empty key pool: no request is ever made and the cursor stays put;
      with at least one attempt the pool's error is what escapes. */
  lemma {:induction false} EmptyPoolNeverCalls(remote: Remote, prompt: string, retries: int, attempt: nat, s: Session)
    requires s.cursor == 0
    ensures var (s2, r) := ContentAttempts([], remote, prompt, retries, attempt, s);
      && s2.calls == s.calls && s2.cursor == 0
      && r == (if attempt < retries then Err(NoApiKeys) else Err(ContentExhausted))
    decreases retries - attempt
  {
    if attempt < retries - 1 {
      EmptyPoolNeverCalls(remote, prompt, retries, attempt + 1, s.(sleeps := s.sleeps + [1]));
    }
  }

  /** Success means the last request was answered with that text, and every
      earlier request of this call was refused (quota or failure). */
  lemma {:induction false} ContentOkMeansAnswered(keys: seq<string>, remote: Remote, prompt: string, retries: int,
                                                  attempt: nat, s: Session)
    requires CursorOk(keys, s.cursor)
    ensures var (s2, r) := ContentAttempts(keys, remote, prompt, retries, attempt, s);
      r.Ok? ==>
        && |s2.calls| > |s.calls|
        && remote.replies(|s2.calls| - 1).Answer? && remote.replies(|s2.calls| - 1).text == r.value
        && forall j :: |s.calls| <= j < |s2.calls| - 1 ==> !remote.replies(j).Answer?
    decreases retries - attempt
  {
    if attempt < retries {
      var (k, c) := NextKey(keys, s.cursor);
      if k.Err? {
        if attempt != retries - 1 {
          ContentOkMeansAnswered(keys, remote, prompt, retries, attempt + 1, s.(sleeps := s.sleeps + [1]));
        }
      } else {
        var s1 := s.(cursor := c, calls := s.calls + [Call(DefaultModel, Some(k.value), prompt)]);
        var reply := remote.replies(|s.calls|);
        if reply.Quota? || (reply.Failure? && attempt != retries - 1) {
          var s1' := s1.(sleeps := s1.sleeps + [if reply.Quota? then Pow2(attempt) else 1]);
          ContentOkMeansAnswered(keys, remote, prompt, retries, attempt + 1, s1');
        }
      }
    }
  }

  // ---------------------------------------------------------------------
  // generate_json

  /** The cleanup before parsing: delete every "```json", then every "```",
      then strip. */
  function CleanReply(text: string): (r: string)
    ensures !Occurs(Fence, r)
    ensures NoEdgeSpace(r)
  {
    var u := RemoveAll(text, "```json");
    var v := RemoveAll(u, Fence);
    RemoveFenceLeavesNoFence(u);
    var r := Strip(v);
    var a, b :| 0 <= a <= b <= |v| && r == v[a..b];
    NoOccurrenceInSlice(Fence, v, a, b);
    r
  }

  lemma {:induction false} NoOccurrenceInSlice(p: string, s: string, a: nat, b: nat)
    requires a <= b <= |s| && !Occurs(p, s)
    ensures !Occurs(p, s[a..b])
    decreases b - a
  {
    assert p != [];
    if a < b {
      NoOccurrenceInSlice(p, s, a + 1, b);
      assert s[a..b][1..] == s[a + 1..b];
      NoOccurrenceInSuffix(p, s, a);
      assert |p| <= b - a ==> s[a..b][..|p|] == s[a..][..|p|];
    } else {
      TooShortToOccur(p, s[a..b]);
    }
  }

  lemma {:induction false} NoOccurrenceInSuffix(p: string, s: string, a: nat)
    requires a <= |s| && !Occurs(p, s)
    ensures !Occurs(p, s[a..])
    decreases a
  {
    if a > 0 {
      NoOccurrenceInSuffix(p, s[1..], a - 1);
      assert s[1..][a - 1..] == s[a..];
    }
  }

  /** A fenced reply "```json<body>```" whose body has no backtick is parsed
      as the stripped body. */
  lemma FencedReplyRoundTrip(body: string)
    requires '`' !in body
    ensures CleanReply("```json" + body + Fence) == Strip(body)
  {
    var t := "```json" + body + Fence;
    assert t == "```json" + (body + Fence);
    assert RemoveAll(t, "```json") == RemoveAll(body + Fence, "```json") by {
      assert t[..7] == "```json";
      assert t[7..] == body + Fence;
    }
    NoOpeningMarker(body, "```json");
    RemoveAllAbsent(body + Fence, "```json");
    RemoveTrailingPattern(body, Fence);
  }

  /** `generate_json(prompt, retries)`: the instruction is appended to the
      prompt, the reply text is cleaned and parsed; a parse failure is
      re-raised, and so is anything `generate_content` raised. */
  function JsonReply(keys: seq<string>, remote: Remote, prompt: string, retries: int, s: Session): (r: (Session, Result<Json>))
    requires CursorOk(keys, s.cursor)
    ensures CursorOk(keys, r.0.cursor)
  {
    var (s2, t) := Content(keys, remote, prompt + JsonInstruction, retries, s);
    match t
    case Err(e) => (s2, Err(e))
    case Ok(text) =>
      match remote.parse(CleanReply(text))
      case None => (s2, Err(JsonDecodeError))
      case Some(j) => (s2, Ok(j))
  }

  /** What `generate_json` hands to the parser is the service's answer with the
      fences deleted and the ends stripped, and every request it made carried
      the prompt with the JSON instruction appended. */
  /** What `generate_content` raises is one of its own three exceptions: no
      keys, retries exhausted, or the service's last failure; never a JSON
      decoding error. */
  lemma {:induction false} ContentErrorKinds(keys: seq<string>, remote: Remote, prompt: string, retries: int,
                                             attempt: nat, s: Session)
    requires CursorOk(keys, s.cursor)
    ensures var r := ContentAttempts(keys, remote, prompt, retries, attempt, s).1;
      r.Err? ==> r.error == NoApiKeys || r.error == ContentExhausted || r.error.RemoteError?
    decreases retries - attempt
  {
    if attempt < retries {
      var (k, c) := NextKey(keys, s.cursor);
      if k.Err? {
        if attempt != retries - 1 {
          ContentErrorKinds(keys, remote, prompt, retries, attempt + 1, s.(sleeps := s.sleeps + [1]));
        }
      } else {
        var s1 := s.(cursor := c, calls := s.calls + [Call(DefaultModel, Some(k.value), prompt)]);
        match remote.replies(|s.calls|)
        case Answer(_, _) =>
        case Quota =>
          ContentErrorKinds(keys, remote, prompt, retries, attempt + 1, s1.(sleeps := s1.sleeps + [Pow2(attempt)]));
        case Failure(m) =>
          if attempt != retries - 1 {
            ContentErrorKinds(keys, remote, prompt, retries, attempt + 1, s1.(sleeps := s1.sleeps + [1]));
          }
      }
    }
  }

  /** `generate_json` sends the prompt with the instruction appended, leaves
      the session exactly as `generate_content` left it, re-raises whatever
      `generate_content` raised, and otherwise parses the cleaned text of the
      reply that ended the call: that parse is the result, and a text that
      does not parse raises `JSONDecodeError`, which happens in no other case. */
  lemma {:induction false} JsonParsesCleanedAnswer(keys: seq<string>, remote: Remote, prompt: string, retries: int, s: Session)
    requires CursorOk(keys, s.cursor)
    ensures var (s1, t) := Content(keys, remote, prompt + JsonInstruction, retries, s);
      var (s2, r) := JsonReply(keys, remote, prompt, retries, s);
      && s2 == s1
      && (forall i :: |s.calls| <= i < |s2.calls| ==> s2.calls[i].prompt == prompt + JsonInstruction)
      && (t.Err? ==> r == Err(t.error) && t.error != JsonDecodeError)
      && (t.Ok? ==>
            && |s2.calls| > |s.calls|
            && remote.replies(|s2.calls| - 1).Answer? && remote.replies(|s2.calls| - 1).text == t.value
            && (remote.parse(CleanReply(t.value)).None? ==> r == Err(JsonDecodeError))
            && (remote.parse(CleanReply(t.value)).Some? ==> r == Ok(remote.parse(CleanReply(t.value)).value)))
      && (r == Err(JsonDecodeError) <==> t.Ok? && remote.parse(CleanReply(t.value)).None?)
  {
    if keys != [] { ContentRotatesEveryAttempt(keys, remote, prompt + JsonInstruction, retries, 0, s); }
    else { EmptyPoolNeverCalls(remote, prompt + JsonInstruction, retries, 0, s); }
    ContentOkMeansAnswered(keys, remote, prompt + JsonInstruction, retries, 0, s);
    ContentErrorKinds(keys, remote, prompt + JsonInstruction, retries, 0, s);
  }

  // ---------------------------------------------------------------------
  // generate_audio

  /** `generate_audio(text, retries)` from attempt `attempt` on. No key is
      taken, so the cursor never moves. The first audio part of an answer is
      returned; an answer without one returns None at once. A quota error
      reaches a handler that reads the undefined name `key`, so it escapes as
      a NameError; any other error is re-raised on the last attempt and
      otherwise sleeps one second. */
  function AudioAttempts(remote: Remote, prompt: string, retries: int, attempt: nat, s: Session): (r: (Session, Result<Option<seq<bv8>>>))
    ensures r.0.cursor == s.cursor
    ensures |s.calls| <= |r.0.calls| && r.0.calls[..|s.calls|] == s.calls
    decreases retries - attempt
  {
    if attempt >= retries then (s, Err(AudioExhausted))
    else
      var s1 := s.(calls := s.calls + [Call(SpeechModel, None, prompt)]);
      match remote.replies(|s.calls|)
      case Answer(_, audio) => (s1, Ok(audio))
      case Quota => (s1, Err(NameError("key")))
      case Failure(m) =>
        if attempt == retries - 1 then (s1, Err(RemoteError(m)))
        else AudioAttempts(remote, prompt, retries, attempt + 1, s1.(sleeps := s1.sleeps + [1]))
  }

  function Audio(remote: Remote, text: string, retries: int, s: Session): (Session, Result<Option<seq<bv8>>>) {
    AudioAttempts(remote, SpeechPreamble + text, retries, 0, s)
  }

  /** Every speech request carries the preamble and the text; none of them
      raises the quota exhaustion error or rotates a key, and a quota error
      ends the call at once with the NameError. */
  lemma {:induction false} AudioNeverRotates(remote: Remote, text: string, retries: int, attempt: nat, s: Session)
    ensures var (s2, r) := AudioAttempts(remote, SpeechPreamble + text, retries, attempt, s);
      && s2.cursor == s.cursor
      && |s2.calls| - |s.calls| <= Max0(retries - attempt)
      && (forall i :: |s.calls| <= i < |s2.calls| ==> s2.calls[i] == Call(SpeechModel, None, SpeechPreamble + text))
      && (r.Err? && r.error != AudioExhausted && r.error != NameError("key") ==> r.error.RemoteError?)
      && (r == Err(NameError("key")) ==> remote.replies(|s2.calls| - 1) == Quota)
    decreases retries - attempt
  {
    if attempt < retries {
      var s1 := s.(calls := s.calls + [Call(SpeechModel, None, SpeechPreamble + text)]);
      var reply := remote.replies(|s.calls|);
      if reply.Failure? && attempt != retries - 1 {
        var s1' := s1.(sleeps := s1.sleeps + [1]);
        AudioNeverRotates(remote, text, retries, attempt + 1, s1');
        var s2 := AudioAttempts(remote, SpeechPreamble + text, retries, attempt + 1, s1').0;
        assert s2.calls[..|s1'.calls|] == s1'.calls;
        assert s2.calls[|s.calls|] == s2.calls[..|s1'.calls|][|s.calls|];
      }
    }
  }

  // ---------------------------------------------------------------------
  // The client object

  class GeminiClient {
    const keys: seq<string>
    const remote: Remote
    var cursor: nat
    var calls: seq<Call>
    ghost var sleeps: seq<nat>

    ghost predicate Valid()
      reads this
    {
      CursorOk(keys, cursor)
    }

    ghost function State(): Session
      reads this
    {
      Session(cursor, calls, sleeps)
    }

    /** `GeminiClient()` with the key pool already loaded. */
    constructor (keys: seq<string>, remote: Remote)
      ensures Valid() && this.keys == keys && this.remote == remote
      ensures State() == Session(0, [], [])
    {
      this.keys := keys;
      this.remote := remote;
      cursor := 0;
      calls := [];
      sleeps := [];
    }

    /** `_get_next_key`. */
    method TakeKey() returns (r: Result<string>)
      requires Valid()
      modifies this
      ensures Valid()
      ensures (r, cursor) == NextKey(keys, old(cursor))
      ensures calls == old(calls) && sleeps == old(sleeps)
    {
      if |keys| == 0 {
        return Err(NoApiKeys);
      }
      r := Ok(keys[cursor]);
      cursor := (cursor + 1) % |keys|;
    }

    /** `generate_content(prompt, retries)`. */
    method GenerateContent(prompt: string, retries: int) returns (r: Result<string>)
      requires Valid()
      modifies this
      ensures Valid()
      ensures (State(), r) == Content(keys, remote, prompt, retries, old(State()))
    {
      var attempt: nat := 0;
      while attempt < retries
        invariant Valid()
        invariant ContentAttempts(keys, remote, prompt, retries, attempt, State()) == Content(keys, remote, prompt, retries, old(State()))
        decreases retries - attempt
      {
        var k := TakeKey();
        if k.Err? {
          if attempt == retries - 1 {
            return Err(k.error);
          }
          sleeps := sleeps + [1];
        } else {
          var reply := remote.replies(|calls|);
          calls := calls + [Call(DefaultModel, Some(k.value), prompt)];
          match reply {
            case Answer(text, _) =>
              return Ok(text);
            case Quota =>
              sleeps := sleeps + [Pow2(attempt)];
            case Failure(m) =>
              if attempt == retries - 1 {
                return Err(RemoteError(m));
              }
              sleeps := sleeps + [1];
          }
        }
        attempt := attempt + 1;
      }
      return Err(ContentExhausted);
    }

    /** `generate_json(prompt, retries)`. */
    method GenerateJson(prompt: string, retries: int) returns (r: Result<Json>)
      requires Valid()
      modifies this
      ensures Valid()
      ensures (State(), r) == JsonReply(keys, remote, prompt, retries, old(State()))
    {
      var text :- GenerateContent(prompt + JsonInstruction, retries);
      var cleaned := RemoveAll(RemoveAll(text, "```json"), Fence);
      cleaned := Strip(cleaned);
      var parsed := remote.parse(cleaned);
      if parsed.None? {
        return Err(JsonDecodeError);
      }
      return Ok(parsed.value);
    }

    /** `generate_audio(text, retries)`. */
    method GenerateAudio(text: string, retries: int) returns (r: Result<Option<seq<bv8>>>)
      requires Valid()
      modifies this
      ensures Valid()
      ensures (State(), r) == Audio(remote, text, retries, old(State()))
    {
      var prompt := SpeechPreamble + text;
      var attempt: nat := 0;
      while attempt < retries
        invariant Valid() && cursor == old(cursor)
        invariant AudioAttempts(remote, prompt, retries, attempt, State()) == Audio(remote, text, retries, old(State()))
        decreases retries - attempt
      {
        var reply := remote.replies(|calls|);
        calls := calls + [Call(SpeechModel, None, prompt)];
        match reply {
          case Answer(_, audio) =>
            return Ok(audio);
          case Quota =>
            return Err(NameError("key"));
          case Failure(m) =>
            if attempt == retries - 1 {
              return Err(RemoteError(m));
            }
            sleeps := sleeps + [1];
        }
        attempt := attempt + 1;
      }
      return Err(AudioExhausted);
    }
  }
}
