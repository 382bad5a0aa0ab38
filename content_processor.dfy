/**
 * The control of GeminiContentProcessor around the model's answers: the
 * bounded retries of every structural stage, the exponential back-off on
 * rate limiting, the progress values reported, the file-type detection,
 * and how the generated topics and challenges are gathered into the
 * result. The answers themselves are parameters: the k-th element of a
 * sequence of answers is what the k-th call returned (a value that is not
 * an array or object stands for a failed call or an unparsable text).
 */
module ContentProcessor {
  import opened Wrappers
  import opened Text
  import opened Json
  import opened Outlines
  import Toon

  // ---------------------------------------------------------------- structural retries

  const MAX_STRUCTURE_RETRIES: nat := 2
  /** The original call plus the retries. */
  const MAX_ATTEMPTS: nat := MAX_STRUCTURE_RETRIES + 1

  /** The outcome of the k-th call; calls beyond the answers given fail. */
  function OutcomeAt<T>(outcomes: seq<Option<T>>, k: nat): Option<T>
  {
    if k < |outcomes| then outcomes[k] else None
  }

  /** What a retried stage returns (None: it threw, or returned null), and how many calls it made. */
  datatype Attempted<T> = Attempted(result: Option<T>, calls: nat)

  /**
   * The retry loop of every stage: call, and on failure count the attempt;
   * give up once more than MAX_STRUCTURE_RETRIES attempts failed.
   * `failed` is the number of attempts that failed so far.
   */
  function Retried<T>(outcomes: seq<Option<T>>, failed: nat): (r: Attempted<T>)
    requires failed <= MAX_STRUCTURE_RETRIES
    ensures failed < r.calls <= MAX_ATTEMPTS
    ensures forall k :: failed <= k < r.calls - 1 ==> OutcomeAt(outcomes, k).None?
    ensures r.result == OutcomeAt(outcomes, r.calls - 1)
    ensures r.result.None? ==> r.calls == MAX_ATTEMPTS
    decreases MAX_STRUCTURE_RETRIES - failed
  {
    var o := OutcomeAt(outcomes, failed);
    if o.Some? then Attempted(o, failed + 1)
    else if failed + 1 > MAX_STRUCTURE_RETRIES then Attempted(None, failed + 1)
    else Retried(outcomes, failed + 1)
  }

  /**
   * A stage returns the first success among the first three calls, after
   * exactly as many calls as it took, and fails only when all three failed.
   */
  lemma {:induction false} RetryFindsFirstSuccess<T>(outcomes: seq<Option<T>>)
    ensures var r := Retried(outcomes, 0);
            (r.result.None? <==> forall k :: 0 <= k < MAX_ATTEMPTS ==> OutcomeAt(outcomes, k).None?) &&
            (r.result.Some? ==> r.result == OutcomeAt(outcomes, r.calls - 1) &&
                                forall k :: 0 <= k < r.calls - 1 ==> OutcomeAt(outcomes, k).None?)
  {
    var r := Retried(outcomes, 0);
    if r.result.None? {
      assert forall k :: 0 <= k < MAX_ATTEMPTS ==> OutcomeAt(outcomes, k).None?;
    }
  }

  /** The retry loop as the source writes it: `while (true)`, leaving by a result or by giving up. */
  method Retry<T>(outcomes: seq<Option<T>>) returns (r: Option<T>, calls: nat)
    ensures Attempted(r, calls) == Retried(outcomes, 0)
  {
    var attempts: nat := 0;
    while true
      invariant attempts <= MAX_STRUCTURE_RETRIES
      invariant Retried(outcomes, attempts) == Retried(outcomes, 0)
      decreases MAX_STRUCTURE_RETRIES - attempts
    {
      var o := OutcomeAt(outcomes, attempts);
      if o.Some? {
        return o, attempts + 1;
      }
      attempts := attempts + 1;
      if attempts > MAX_STRUCTURE_RETRIES {
        return None, attempts;
      }
    }
  }

  /** Stage 0, analyzeDocumentStructure: the sections read from each answer, retried. */
  function AnalyzeDocumentStructure(answers: seq<Json>, documents: seq<DocumentContent>): (r: Attempted<seq<SemanticSection>>)
    ensures 0 < r.calls <= MAX_ATTEMPTS
    ensures r.result.None? <==> forall k :: 0 <= k < MAX_ATTEMPTS && k < |answers| ==> SemanticSections(answers[k], documents).None?
  {
    var outcomes := seq(|answers|, k requires 0 <= k < |answers| => SemanticSections(answers[k], documents));
    RetryFindsFirstSuccess(outcomes);
    assert forall k :: 0 <= k < |answers| ==> OutcomeAt(outcomes, k) == SemanticSections(answers[k], documents);
    Retried(outcomes, 0)
  }

  /** Stage 1, extractTopics. */
  function ExtractTopics(answers: seq<Json>): (r: Attempted<seq<TopicOutline>>)
    ensures 0 < r.calls <= MAX_ATTEMPTS
    ensures r.result.None? <==> forall k :: 0 <= k < MAX_ATTEMPTS && k < |answers| ==> TopicOutlines(answers[k]).None?
  {
    var outcomes := seq(|answers|, k requires 0 <= k < |answers| => TopicOutlines(answers[k]));
    RetryFindsFirstSuccess(outcomes);
    assert forall k :: 0 <= k < |answers| ==> OutcomeAt(outcomes, k) == TopicOutlines(answers[k]);
    Retried(outcomes, 0)
  }

  /** Stage 2a, extractChallengeOutlines. */
  function ExtractChallengeOutlines(answers: seq<Json>): (r: Attempted<seq<ChallengeOutline>>)
    ensures 0 < r.calls <= MAX_ATTEMPTS
    ensures r.result.None? <==> forall k :: 0 <= k < MAX_ATTEMPTS && k < |answers| ==> ChallengeOutlines(answers[k]).None?
  {
    var outcomes := seq(|answers|, k requires 0 <= k < |answers| => ChallengeOutlines(answers[k]));
    RetryFindsFirstSuccess(outcomes);
    assert forall k :: 0 <= k < |answers| ==> OutcomeAt(outcomes, k) == ChallengeOutlines(answers[k]);
    Retried(outcomes, 0)
  }

  /** Whatever a structural stage returns was read from one of its first three answers. */
  lemma {:induction false} StagesReadTheirAnswers(answers: seq<Json>, documents: seq<DocumentContent>)
    ensures AnalyzeDocumentStructure(answers, documents).result.Some? ==>
      exists k :: 0 <= k < MAX_ATTEMPTS && k < |answers| && SemanticSections(answers[k], documents) == AnalyzeDocumentStructure(answers, documents).result
    ensures ExtractTopics(answers).result.Some? ==>
      exists k :: 0 <= k < MAX_ATTEMPTS && k < |answers| && TopicOutlines(answers[k]) == ExtractTopics(answers).result
    ensures ExtractChallengeOutlines(answers).result.Some? ==>
      exists k :: 0 <= k < MAX_ATTEMPTS && k < |answers| && ChallengeOutlines(answers[k]) == ExtractChallengeOutlines(answers).result
  {
    var r0 := AnalyzeDocumentStructure(answers, documents);
    if r0.result.Some? {
      assert SemanticSections(answers[r0.calls - 1], documents) == r0.result;
    }
    var r1 := ExtractTopics(answers);
    if r1.result.Some? {
      assert TopicOutlines(answers[r1.calls - 1]) == r1.result;
    }
    var r2 := ExtractChallengeOutlines(answers);
    if r2.result.Some? {
      assert ChallengeOutlines(answers[r2.calls - 1]) == r2.result;
    }
  }

  /**
   * One attempt of generateChallengeContent: the answer must be an object
   * that meets the guidelines, and it must expand; anything else throws
   * and is retried.
   */
  function ChallengeAttempt(answer: Json): (r: Option<Object>)
    ensures r.Some? ==> answer.JObj? && Toon.ValidToon(answer.fields) && Toon.ExpandChallenge(answer.fields) == r
  {
    if answer.JObj? && Toon.ValidToon(answer.fields) then Toon.ExpandChallenge(answer.fields) else None
  }

  /** generateChallengeContent: the expanded challenge, or null (None) after three failed attempts. */
  method GenerateChallengeContent(answers: seq<Json>) returns (r: Option<Object>, calls: nat)
    ensures Attempted(r, calls) == Retried(seq(|answers|, k requires 0 <= k < |answers| => ChallengeAttempt(answers[k])), 0)
  {
    ghost var outcomes := seq(|answers|, k requires 0 <= k < |answers| => ChallengeAttempt(answers[k]));
    var attempts: nat := 0;
    while true
      invariant attempts <= MAX_STRUCTURE_RETRIES
      invariant Retried(outcomes, attempts) == Retried(outcomes, 0)
      decreases MAX_STRUCTURE_RETRIES - attempts
    {
      var expanded: Option<Object> := None;
      if attempts < |answers| && answers[attempts].JObj? {
        var valid := Toon.ValidateToonChallenge(answers[attempts].fields);
        if valid {
          expanded := Toon.ExpandChallengeObject(answers[attempts].fields);
        }
      }
      assert expanded == OutcomeAt(outcomes, attempts);
      if expanded.Some? {
        return expanded, attempts + 1;
      }
      attempts := attempts + 1;
      if attempts > MAX_STRUCTURE_RETRIES {
        return None, attempts;
      }
    }
  }

  /** A generated challenge always comes from an answer that met the guidelines. */
  lemma {:induction false} GeneratedChallengesAreValid(answers: seq<Json>)
    ensures var r := Retried(seq(|answers|, k requires 0 <= k < |answers| => ChallengeAttempt(answers[k])), 0);
            r.result.Some? ==>
              var a := answers[r.calls - 1];
              a.JObj? && Toon.ValidToon(a.fields) && Toon.ExpandChallenge(a.fields) == r.result
  {
    var outcomes := seq(|answers|, k requires 0 <= k < |answers| => ChallengeAttempt(answers[k]));
    ResultIsAnOutcome(outcomes);
  }

  /** A stage's result, when there is one, is the outcome of a call that was made. */
  lemma {:induction false} ResultIsAnOutcome<T>(outcomes: seq<Option<T>>)
    ensures var r := Retried(outcomes, 0);
            r.result.Some? ==> r.calls - 1 < |outcomes| && r.result == outcomes[r.calls - 1]
  {
  }

  // ---------------------------------------------------------------- rate limiting

  const INITIAL_RETRY_DELAY_MS: int := 2000
  const MAX_RETRY_DELAY_MS: int := 30000
  const MAX_RETRY_DURATION_MS: int := 30 * 60 * 1000

  /** The delay after a rate-limited call: doubled, capped at thirty seconds. */
  function NextDelay(d: int): (r: int)
    ensures r <= MAX_RETRY_DELAY_MS
    ensures 0 <= d <= MAX_RETRY_DELAY_MS ==> d <= r
    ensures 0 < d ==> 0 < r
  {
    if d * 2 < MAX_RETRY_DELAY_MS then d * 2 else MAX_RETRY_DELAY_MS
  }

  /** The wait before the (k+1)-th retry of a rate-limited call. */
  function Delay(k: nat): (r: int)
    ensures INITIAL_RETRY_DELAY_MS <= r <= MAX_RETRY_DELAY_MS
  {
    if k == 0 then INITIAL_RETRY_DELAY_MS else NextDelay(Delay(k - 1))
  }

  function Pow2(k: nat): nat
  {
    if k == 0 then 1 else 2 * Pow2(k - 1)
  }

  /** The waits are 2, 4, 8 and 16 seconds, then thirty seconds each: 2000 * 2^k capped at 30000. */
  lemma {:induction false} DelayClosedForm(k: nat)
    ensures Delay(k) == if INITIAL_RETRY_DELAY_MS * Pow2(k) < MAX_RETRY_DELAY_MS then INITIAL_RETRY_DELAY_MS * Pow2(k) else MAX_RETRY_DELAY_MS
    ensures k >= 4 ==> Delay(k) == MAX_RETRY_DELAY_MS
    ensures INITIAL_RETRY_DELAY_MS <= Delay(k) <= MAX_RETRY_DELAY_MS
  {
    if k > 0 {
      DelayClosedForm(k - 1);
      if k >= 4 {
        Pow2AtLeast16(k);
      }
    }
  }

  lemma {:induction false} Pow2AtLeast16(k: nat)
    requires k >= 4
    ensures Pow2(k) >= 16
  {
    if k > 4 {
      Pow2AtLeast16(k - 1);
    }
  }

  /** A later wait is never shorter. */
  lemma {:induction false} DelayMonotone(j: nat, k: nat)
    requires j <= k
    ensures Delay(j) <= Delay(k)
    decreases k - j
  {
    if j < k {
      DelayMonotone(j, k - 1);
      DelayClosedForm(k - 1);
    }
  }

  /**
   * The rate-limit loop of makeApiCall, for a run of rate-limited answers:
   * `elapsed[k]` is the time since the first call when the k-th
   * rate-limited answer came. Each one within the thirty minutes is waited
   * out with the current delay; the first one past them ends the call with
   * an IOException (timedOut).
   */
  method RateLimitWaits(elapsed: seq<int>) returns (waits: seq<int>, timedOut: bool)
    ensures |waits| <= |elapsed|
    ensures forall k :: 0 <= k < |waits| ==> waits[k] == Delay(k) && elapsed[k] < MAX_RETRY_DURATION_MS
    ensures timedOut <==> |waits| < |elapsed|
    ensures timedOut ==> elapsed[|waits|] >= MAX_RETRY_DURATION_MS
  {
    var currentDelay := INITIAL_RETRY_DELAY_MS;
    waits := [];
    timedOut := false;
    var k := 0;
    while k < |elapsed|
      invariant 0 <= k <= |elapsed| && |waits| == k
      invariant currentDelay == Delay(k)
      invariant forall j :: 0 <= j < k ==> waits[j] == Delay(j) && elapsed[j] < MAX_RETRY_DURATION_MS
    {
      if elapsed[k] >= MAX_RETRY_DURATION_MS {
        timedOut := true;
        return;
      }
      waits := waits + [currentDelay];
      currentDelay := if currentDelay * 2 < MAX_RETRY_DELAY_MS then currentDelay * 2 else MAX_RETRY_DELAY_MS;
      k := k + 1;
    }
  }

  // ---------------------------------------------------------------- progress

  const BASE_PROGRESS: int := 40
  const PROGRESS_RANGE: int := 55

  /** The progress a topic starts at: 40 + i * 55 / totalTopics. */
  function TopicBase(i: int, totalTopics: int): (r: int)
    requires totalTopics > 0
    ensures 0 <= i <= totalTopics ==> BASE_PROGRESS <= r <= BASE_PROGRESS + PROGRESS_RANGE
  {
    if 0 <= i <= totalTopics then
      ShareWithin(i, PROGRESS_RANGE, totalTopics);
      assert i * PROGRESS_RANGE == PROGRESS_RANGE * i;
      BASE_PROGRESS + i * PROGRESS_RANGE / totalTopics
    else
      BASE_PROGRESS + i * PROGRESS_RANGE / totalTopics
  }

  /** The share of a topic: 55 / totalTopics. */
  function TopicRange(totalTopics: int): (r: int)
    requires totalTopics > 0
    ensures 0 <= r <= PROGRESS_RANGE
    ensures r * totalTopics <= PROGRESS_RANGE
  {
    PROGRESS_RANGE / totalTopics
  }

  /** The progress reported when the completed-th challenge of a topic is done. */
  function ChallengeProgress(base: int, range: int, completed: int, totalChallenges: int): (r: int)
    requires totalChallenges > 0
    ensures 0 <= completed <= totalChallenges && range >= 0 ==> base <= r <= base + range
    ensures completed == 0 ==> r == base
  {
    if 0 <= completed <= totalChallenges && range >= 0 then
      ShareWithin(completed, range, totalChallenges);
      base + completed * range / totalChallenges
    else
      base + completed * range / totalChallenges
  }

  lemma {:induction false} DivLowerBound(x: int, q: int, n: int)
    requires n > 0 && q * n <= x
    ensures q <= x / n
  {
    var d := x / n;
    assert x == d * n + x % n && x % n < n;
    assert (d + 1 - q) * n == d * n + n - q * n;
    assert (d + 1 - q) * n > 0;
  }

  lemma {:induction false} DivSum(a: nat, b: nat, n: int)
    requires n > 0
    ensures a / n + b / n <= (a + b) / n
  {
    assert (a / n) * n <= a && (b / n) * n <= b;
    assert (a / n + b / n) * n == (a / n) * n + (b / n) * n;
    DivLowerBound(a + b, a / n + b / n, n);
  }

  lemma {:induction false} DivAtMost(x: int, q: int, n: int)
    requires n > 0 && x <= q * n
    ensures x / n <= q
  {
    var d := x / n;
    assert d * n <= x;
    assert (q - d) * n >= 0;
  }

  /** The completed share of a topic's range: between nothing and the whole range. */
  lemma {:induction false} ShareWithin(completed: int, range: int, total: int)
    requires 0 <= completed <= total && total > 0 && range >= 0
    ensures 0 <= completed * range / total <= range
  {
    assert completed * range >= 0;
    assert (total - completed) * range >= 0;
    DivAtMost(completed * range, range, total);
  }

  /**
   * Progress stays in its stage: every value a topic reports, from its
   * start to its last challenge, lies within its own share, the shares
   * follow each other in topic order, and all of them lie between 40 and
   * 95, after "Extracting topics" (30) and before "Finalizing" (98).
   */
  lemma {:induction false} ProgressWithinTopicShare(i: int, totalTopics: int, completed: int, totalChallenges: int)
    requires 0 <= i < totalTopics && 0 <= completed <= totalChallenges && totalChallenges > 0
    ensures var base := TopicBase(i, totalTopics);
            var p := ChallengeProgress(base, TopicRange(totalTopics), completed, totalChallenges);
            30 < BASE_PROGRESS <= base <= p <= base + TopicRange(totalTopics) <= TopicBase(i + 1, totalTopics) <= 95 < 98
  {
    var T := totalTopics;
    assert TopicRange(T) >= 0;
    ShareWithin(completed, TopicRange(T), totalChallenges);
    assert i * PROGRESS_RANGE >= 0;
    DivSum(i * PROGRESS_RANGE, PROGRESS_RANGE, T);
    assert i * PROGRESS_RANGE + PROGRESS_RANGE == (i + 1) * PROGRESS_RANGE;
    assert (i + 1) * PROGRESS_RANGE <= PROGRESS_RANGE * T;
    DivAtMost((i + 1) * PROGRESS_RANGE, PROGRESS_RANGE, T);
  }

  // ---------------------------------------------------------------- files

  /** getMimeType: by the lower-cased file name's ending. */
  function MimeType(fileName: string): (r: string)
    ensures r in ["application/pdf", "image/jpeg", "image/png", "image/webp", "text/plain"]
    ensures EndsWith(ToLower(fileName), ".pdf") ==> r == "application/pdf"
    ensures r == "text/plain" <==> !EndsWith(ToLower(fileName), ".pdf") && !HasImageExtension(ToLower(fileName))
  {
    var name := ToLower(fileName);
    if EndsWith(name, ".pdf") then "application/pdf"
    else if EndsWith(name, ".jpg") || EndsWith(name, ".jpeg") then "image/jpeg"
    else if EndsWith(name, ".png") then "image/png"
    else if EndsWith(name, ".webp") then "image/webp"
    else "text/plain"
  }

  /** isBinaryMimeType: an image type, "image/" followed by anything. */
  function IsBinaryMimeType(mimeType: string): (r: bool)
    ensures r <==> exists rest :: mimeType == "image/" + rest
  {
    assert StartsWith(mimeType, "image/") ==> mimeType == "image/" + mimeType[6..];
    StartsWith(mimeType, "image/")
  }

  predicate HasImageExtension(name: string)
  {
    EndsWith(name, ".jpg") || EndsWith(name, ".jpeg") || EndsWith(name, ".png") || EndsWith(name, ".webp")
  }

  lemma {:induction false} LowerIdempotent(s: string)
    ensures ToLower(ToLower(s)) == ToLower(s)
  {
    assert forall i :: 0 <= i < |s| ==> LowerChar(LowerChar(s[i])) == LowerChar(s[i]);
  }

  /**
   * A file is sent as an inline image exactly when its name ends in .jpg,
   * .jpeg, .png or .webp in any case; a PDF is read as text pages; and
   * the detection ignores the case of the name.
   */
  lemma {:induction false} BinaryExactlyForImages(fileName: string)
    ensures IsBinaryMimeType(MimeType(fileName)) <==> !EndsWith(ToLower(fileName), ".pdf") && HasImageExtension(ToLower(fileName))
    ensures MimeType(ToLower(fileName)) == MimeType(fileName)
  {
    LowerIdempotent(fileName);
    assert !StartsWith("application/pdf", "image/") by {
      assert "application/pdf"[..6][0] != "image/"[0];
    }
    assert !StartsWith("text/plain", "image/") by {
      assert "text/plain"[..6][0] != "image/"[0];
    }
  }

  // ---------------------------------------------------------------- gathering the results

  /** The objects that were generated, in order; a null (failed) entry is skipped. */
  function Present(results: seq<Option<Object>>): (r: seq<Json>)
    ensures |r| <= |results|
    ensures forall j :: 0 <= j < |r| ==> r[j].JObj? && Some(r[j].fields) in results
    ensures forall i :: 0 <= i < |results| && results[i].Some? ==> JObj(results[i].value) in r
    ensures (forall i :: 0 <= i < |results| ==> results[i].Some?) ==> |r| == |results|
    decreases |results|
  {
    if |results| == 0 then []
    else
      var init := Present(results[..|results| - 1]);
      var last := results[|results| - 1];
      assert forall x :: x in results[..|results| - 1] ==> x in results;
      if last.Some? then init + [JObj(last.value)] else init
  }

  /** A single result is kept exactly when it is not null. */
  lemma {:induction false} PresentOne(x: Option<Object>)
    ensures Present([x]) == if x.Some? then [JObj(x.value)] else []
  {
    assert [x][..0] == [];
  }

  /** Gathering keeps submission order: the results of two runs are gathered one run after the other. */
  lemma {:induction false} PresentAppend(a: seq<Option<Object>>, b: seq<Option<Object>>)
    ensures Present(a + b) == Present(a) + Present(b)
    decreases |b|
  {
    if |b| == 0 {
      assert a + b == a;
    } else {
      var b' := b[..|b| - 1];
      PresentAppend(a, b');
      assert (a + b)[..|a + b| - 1] == a + b';
      assert (a + b)[|a + b| - 1] == b[|b| - 1];
    }
  }

  /**
   * generateTopicContent's result: the topic's title and the challenges
   * generated, failed ones left out; with no challenge outlines at all the
   * challenges array is empty.
   */
  function TopicContent(title: string, challenges: seq<Option<Object>>): (r: Object)
    ensures r.Keys == {"title", "challenges"}
    ensures r["title"] == JStr(title) && r["challenges"].JArr?
    ensures challenges == [] ==> r["challenges"] == JArr([])
  {
    map["title" := JStr(title), "challenges" := JArr(Present(challenges))]
  }

  /** processFiles' result: the topics generated, failed ones left out. */
  function FinalResult(topics: seq<Option<Object>>): (r: Object)
    ensures r.Keys == {"topics"} && r["topics"].JArr?
    ensures |r["topics"].items| <= |topics|
  {
    map["topics" := JArr(Present(topics))]
  }
}
