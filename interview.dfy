/**
 * The interview service: in-memory sessions with their message history,
 * transcript, running per-skill score averages and submitted artifacts.
 *
 * The language model is a parameter `llm` of each operation that calls it: it
 * maps the message list to the parsed response content, or to None when the
 * call or the parsing of its reply fails. Clock readings are a `now`
 * parameter, identifiers come from a counter, and the upload directory is a
 * map from storage path to bytes.
 */
module Interview {
  import opened Wrappers
  import opened Text
  import opened Schemas
  import opened Prompts

  /** One entry of the message history sent to the model (`{"role": ..., "content": ...}`). */
  datatype Message = Message(role: string, content: string)

  /** A rubric score as `record_scores` sees it: a number (int, float or bool) or anything else. */
  datatype ScoreValue = Number(value: real) | NotNumber

  /**
   * The `evaluation` object of a model reply. `keys` are the keys the object
   * has; a field is None when its key is absent or its value is null.
   */
  datatype EvaluationPayload = EvaluationPayload(
    keys: set<string>,
    summary: Option<string>,
    strengths: Option<seq<string>>,
    gaps: Option<seq<string>>,
    rubricScores: Option<map<string, real>>,
    recommendation: Option<string>)

  /**
   * The parsed reply of the model: the keys the service reads (None when
   * absent or null) and `text`, the reply serialised back to JSON.
   */
  datatype Content = Content(
    interviewerMessage: Option<string>,
    evaluation: Option<EvaluationPayload>,
    nextBestAction: Option<string>,
    overallSummary: Option<string>,
    scorecard: Option<map<string, real>>,
    nextSteps: Option<seq<string>>,
    text: string)

  /** The exceptions the service raises. */
  datatype Error = KeyError(message: string) | ValueError(message: string) | LlmFailure

  function UnknownSessionMessage(sessionId: string): string {
    "Unknown session id " + sessionId
  }

  function UnknownArtifactMessage(artifactId: string): string {
    "Unknown artifact id " + artifactId
  }

  const UnsupportedFileMessage: string :=
    "Unsupported file type. Upload Excel workbooks, CSV/TSV extracts, or OpenDocument spreadsheets."
  const FileTooLargeMessage: string := "File exceeds the maximum allowed size of 10 MB."
  const InvalidLinkMessage: string := "Provide a valid shareable link starting with http:// or https://"

  /** The default upload limit: 10 MiB. */
  const DefaultMaxUploadBytes: int := 10 * 1024 * 1024

  /** The upload directory used when none is configured (the repository's `backend/uploads`). */
  const DefaultStorageDir: string := "backend/uploads"

  /** The identifier drawn from the `n`-th use of the id supply. */
  function FreshId(n: nat): string {
    NatToString(n)
  }

  /** Different draws give different identifiers. */
  lemma FreshIdInjective(m: nat, n: nat)
    ensures FreshId(m) == FreshId(n) <==> m == n
  {
    if FreshId(m) == FreshId(n) {
      NatToStringInjective(m, n);
    }
  }

  // ---------------------------------------------------------------------
  // Running score averages

  /** The sum of a sequence of scores. */
  function Sum(xs: seq<real>): real
    decreases |xs|
  {
    if xs == [] then 0.0 else Sum(xs[..|xs| - 1]) + xs[|xs| - 1]
  }

  /** The arithmetic mean of a sequence of scores (0 for none). */
  function Mean(xs: seq<real>): real {
    if xs == [] then 0.0 else Sum(xs) / (|xs| as real)
  }

  /** A skill's average: its total over its count (`total / count`). */
  function Ratio(total: real, count: nat): real
    requires count > 0
  {
    total / (count as real)
  }

  /** Adding one score adds it to the sum. */
  lemma SumAppend(xs: seq<real>, v: real)
    ensures Sum(xs + [v]) == Sum(xs) + v
  {
    assert (xs + [v])[..|xs|] == xs;
  }

  /** The sum of a concatenation is the sum of the sums. */
  lemma {:induction false} SumConcat(xs: seq<real>, ys: seq<real>)
    ensures Sum(xs + ys) == Sum(xs) + Sum(ys)
    decreases |ys|
  {
    if ys == [] {
      assert xs + ys == xs;
    } else {
      var init := ys[..|ys| - 1];
      assert xs + ys == (xs + init) + [ys[|ys| - 1]];
      SumAppend(xs + init, ys[|ys| - 1]);
      SumConcat(xs, init);
      assert ys == init + [ys[|ys| - 1]];
      SumAppend(init, ys[|ys| - 1]);
    }
  }

  /** The sum does not depend on the order of the scores. */
  lemma {:induction false} SumPermutation(xs: seq<real>, ys: seq<real>)
    requires multiset(xs) == multiset(ys)
    ensures Sum(xs) == Sum(ys)
    decreases |xs|
  {
    if xs != [] {
      var last := xs[|xs| - 1];
      var init := xs[..|xs| - 1];
      assert xs == init + [last];
      assert last in multiset(ys);
      var i :| 0 <= i < |ys| && ys[i] == last;
      var rest := ys[..i] + ys[i + 1..];
      assert ys == ys[..i] + [last] + ys[i + 1..];
      assert multiset(xs) == multiset(init) + multiset{last};
      assert multiset(ys) == multiset(ys[..i]) + multiset{last} + multiset(ys[i + 1..]);
      assert multiset(rest) == multiset(ys[..i]) + multiset(ys[i + 1..]);
      assert multiset(init) == multiset(xs) - multiset{last};
      assert multiset(rest) == multiset(ys) - multiset{last};
      SumPermutation(init, rest);
      SumAppend(init, last);
      SumConcat(ys[..i] + [last], ys[i + 1..]);
      SumAppend(ys[..i], last);
      SumConcat(ys[..i], ys[i + 1..]);
    }
  }

  /** The mean does not depend on the order in which the scores arrived. */
  lemma MeanPermutation(xs: seq<real>, ys: seq<real>)
    requires multiset(xs) == multiset(ys)
    ensures Mean(xs) == Mean(ys)
  {
    assert |xs| == |multiset(xs)| == |ys|;
    SumPermutation(xs, ys);
  }

  /** The skills of a score map whose values are numbers. */
  function Numeric(scores: map<string, ScoreValue>): set<string> {
    set s | s in scores && scores[s].Number?
  }

  /** `totals.get(s, 0.0)`. */
  function TotalOf(totals: map<string, real>, s: string): real {
    if s in totals then totals[s] else 0.0
  }

  /** `counts.get(s, 0)`. */
  function CountOf(counts: map<string, nat>, s: string): nat {
    if s in counts then counts[s] else 0
  }

  /** The scores seen so far for a skill. */
  function SeenOf(seen: map<string, seq<real>>, s: string): seq<real> {
    if s in seen then seen[s] else []
  }

  /** The totals after adding each numeric score to its skill's total. */
  function AddedTotals(totals: map<string, real>, scores: map<string, ScoreValue>): (r: map<string, real>)
    ensures r.Keys == totals.Keys + Numeric(scores)
    ensures forall s :: s in Numeric(scores) ==> r[s] == TotalOf(totals, s) + scores[s].value
    ensures forall s :: s in totals && s !in Numeric(scores) ==> r[s] == totals[s]
  {
    map s | s in totals.Keys + Numeric(scores) :: if s in Numeric(scores) then TotalOf(totals, s) + scores[s].value else totals[s]
  }

  /** The counts after counting one more score for each skill with a numeric score. */
  function AddedCounts(counts: map<string, nat>, scores: map<string, ScoreValue>): (r: map<string, nat>)
    ensures r.Keys == counts.Keys + Numeric(scores)
    ensures forall s :: s in Numeric(scores) ==> r[s] == CountOf(counts, s) + 1
    ensures forall s :: s in counts && s !in Numeric(scores) ==> r[s] == counts[s]
  {
    map s | s in counts.Keys + Numeric(scores) :: if s in Numeric(scores) then CountOf(counts, s) + 1 else counts[s]
  }

  /** The scores seen per skill after this evaluation. */
  ghost function AddedSeen(seen: map<string, seq<real>>, scores: map<string, ScoreValue>): (r: map<string, seq<real>>)
    ensures r.Keys == seen.Keys + Numeric(scores)
    ensures forall s :: s in Numeric(scores) ==> r[s] == SeenOf(seen, s) + [scores[s].value]
    ensures forall s :: s in seen && s !in Numeric(scores) ==> r[s] == seen[s]
  {
    map s | s in seen.Keys + Numeric(scores) :: if s in Numeric(scores) then SeenOf(seen, s) + [scores[s].value] else seen[s]
  }

  /** Totals and counts that are the sums and sizes of the scores seen. */
  ghost predicate ScoresAgree(totals: map<string, real>, counts: map<string, nat>, seen: map<string, seq<real>>) {
    && totals.Keys == seen.Keys
    && counts.Keys == seen.Keys
    && forall s :: s in seen ==> totals[s] == Sum(seen[s]) && counts[s] == |seen[s]|
  }

  /** Recording an evaluation keeps totals and counts equal to the sums and sizes of the scores seen. */
  lemma RecordingKeepsAgreement(
    totals: map<string, real>, counts: map<string, nat>, seen: map<string, seq<real>>,
    scores: map<string, ScoreValue>)
    requires ScoresAgree(totals, counts, seen)
    ensures ScoresAgree(AddedTotals(totals, scores), AddedCounts(counts, scores), AddedSeen(seen, scores))
  {
    forall s | s in Numeric(scores) {
      SumAppend(SeenOf(seen, s), scores[s].value);
    }
  }

  /** Each skill's average is the mean of the scores seen for it. */
  lemma AverageIsMean(totals: map<string, real>, counts: map<string, nat>, seen: map<string, seq<real>>, s: string)
    requires ScoresAgree(totals, counts, seen)
    requires s in seen && counts[s] > 0
    ensures Ratio(totals[s], counts[s]) == Mean(seen[s])
  {
  }

  /** `m.setdefault(k, d)` for every `k` in `keys`, in order. */
  function SeedDefaults<V>(m: map<string, V>, keys: seq<string>, d: V): (r: map<string, V>)
    ensures forall k :: k in r <==> k in m || k in keys
    ensures forall k :: k in m ==> r[k] == m[k]
    ensures forall k :: k in keys && k !in m ==> r[k] == d
  {
    map k | k in m.Keys + (set x | x in keys) :: if k in m then m[k] else d
  }

  /** Seeding twice is seeding once. */
  lemma SeedDefaultsIdempotent<V>(m: map<string, V>, keys: seq<string>, d: V)
    ensures SeedDefaults(SeedDefaults(m, keys, d), keys, d) == SeedDefaults(m, keys, d)
  {
  }

  /** One more score is numeric exactly when it is a number. */
  lemma NumericOneMore(part: map<string, ScoreValue>, s: string, v: ScoreValue)
    requires s !in part
    ensures Numeric(part[s := v]) == if v.Number? then Numeric(part) + {s} else Numeric(part)
  {
  }

  /** Recording one more score adds it to its own skill's total only. */
  lemma AddedTotalsOneMore(totals: map<string, real>, part: map<string, ScoreValue>, s: string, v: ScoreValue)
    requires s !in part && v.Number?
    ensures AddedTotals(totals, part[s := v]) == AddedTotals(totals, part)[s := TotalOf(totals, s) + v.value]
  {
    NumericOneMore(part, s, v);
  }

  /** Recording one more score adds one to its own skill's count only. */
  lemma AddedCountsOneMore(counts: map<string, nat>, part: map<string, ScoreValue>, s: string, v: ScoreValue)
    requires s !in part && v.Number?
    ensures AddedCounts(counts, part[s := v]) == AddedCounts(counts, part)[s := CountOf(counts, s) + 1]
  {
    NumericOneMore(part, s, v);
  }

  /** Recording a numeric score on the maps reached so far reaches the maps for one more score. */
  lemma RecordStep(
    totals0: map<string, real>, counts0: map<string, nat>, done: map<string, ScoreValue>, s: string, v: real,
    totals: map<string, real>, counts: map<string, nat>)
    requires s !in done
    requires totals == AddedTotals(totals0, done) && counts == AddedCounts(counts0, done)
    ensures totals[s := TotalOf(totals, s) + v] == AddedTotals(totals0, done[s := Number(v)])
    ensures counts[s := CountOf(counts, s) + 1] == AddedCounts(counts0, done[s := Number(v)])
    ensures Numeric(done[s := Number(v)]) == Numeric(done) + {s}
  {
    NumericOneMore(done, s, Number(v));
    AddedTotalsOneMore(totals0, done, s, Number(v));
    AddedCountsOneMore(counts0, done, s, Number(v));
  }

  /** A score that is not a number changes nothing. */
  lemma AddedNotNumber(totals: map<string, real>, counts: map<string, nat>, part: map<string, ScoreValue>, s: string)
    requires s !in part
    ensures AddedTotals(totals, part[s := NotNumber]) == AddedTotals(totals, part)
    ensures AddedCounts(counts, part[s := NotNumber]) == AddedCounts(counts, part)
  {
    NumericOneMore(part, s, NotNumber);
  }

  /**
   * The state of `record_scores` after the scores in `done`: totals and counts
   * updated by them, and the new average of each numeric one.
   */
  ghost predicate Accumulated(
    totals: map<string, real>, counts: map<string, nat>, done: map<string, ScoreValue>,
    newTotals: map<string, real>, newCounts: map<string, nat>, updated: map<string, real>)
  {
    && newTotals == AddedTotals(totals, done)
    && newCounts == AddedCounts(counts, done)
    && updated.Keys == Numeric(done)
    && forall k :: k in updated ==> k in newTotals && k in newCounts && newCounts[k] > 0 && updated[k] == Ratio(newTotals[k], newCounts[k])
  }

  /** One iteration of the `record_scores` loop: skip a non-number, else add it and average. */
  method RecordOneScore(
    ghost totals: map<string, real>, ghost counts: map<string, nat>, ghost done: map<string, ScoreValue>,
    newTotals: map<string, real>, newCounts: map<string, nat>, updated: map<string, real>,
    s: string, value: ScoreValue)
    returns (newTotals': map<string, real>, newCounts': map<string, nat>, updated': map<string, real>)
    requires s !in done
    requires Accumulated(totals, counts, done, newTotals, newCounts, updated)
    ensures Accumulated(totals, counts, done[s := value], newTotals', newCounts', updated')
  {
    NumericOneMore(done, s, value);
    if value.Number? {
      var v := value.value;
      RecordStep(totals, counts, done, s, v, newTotals, newCounts);
      newTotals' := newTotals[s := TotalOf(newTotals, s) + v];
      newCounts' := newCounts[s := CountOf(newCounts, s) + 1];
      updated' := updated[s := Ratio(newTotals'[s], newCounts'[s])];
    } else {
      AddedNotNumber(totals, counts, done, s);
      newTotals', newCounts', updated' := newTotals, newCounts, updated;
    }
  }

  /**
   * The loop of `record_scores` over the score maps: each numeric score is
   * added to its skill's total and counted, and the skill's new average returned.
   */
  method AccumulateScores(totals: map<string, real>, counts: map<string, nat>, scores: map<string, ScoreValue>)
    returns (newTotals: map<string, real>, newCounts: map<string, nat>, updated: map<string, real>)
    ensures newTotals == AddedTotals(totals, scores)
    ensures newCounts == AddedCounts(counts, scores)
    ensures updated.Keys == Numeric(scores)
    ensures forall k :: k in updated ==> k in newTotals && k in newCounts && newCounts[k] > 0
    ensures forall k :: k in updated ==> updated[k] == Ratio(newTotals[k], newCounts[k])
  {
    var pending := scores.Keys;
    ghost var done: map<string, ScoreValue> := map[];
    newTotals, newCounts, updated := totals, counts, map[];
    assert AddedTotals(totals, done) == totals;
    assert AddedCounts(counts, done) == counts;
    while pending != {}
      invariant pending <= scores.Keys
      invariant done.Keys == scores.Keys - pending
      invariant forall k :: k in done ==> done[k] == scores[k]
      invariant Accumulated(totals, counts, done, newTotals, newCounts, updated)
      decreases pending
    {
      var s :| s in pending;
      newTotals, newCounts, updated := RecordOneScore(totals, counts, done, newTotals, newCounts, updated, s, scores[s]);
      done := done[s := scores[s]];
      pending := pending - {s};
    }
    assert done == scores;
  }

  /** Seeding one more key is a `setdefault` on the seeded map. */
  lemma SeedOneMore<V>(m: map<string, V>, keys: seq<string>, k: string, d: V)
    ensures SeedDefaults(m, keys + [k], d) ==
      if k in SeedDefaults(m, keys, d) then SeedDefaults(m, keys, d) else SeedDefaults(m, keys, d)[k := d]
  {
    var r := SeedDefaults(m, keys, d);
    var r' := SeedDefaults(m, keys + [k], d);
    assert forall x :: x in keys + [k] <==> x in keys || x == k;
    assert r'.Keys == if k in r then r.Keys else r.Keys + {k};
  }

  /** Seeding the same skills with a zero total, a zero count and no scores keeps the maps in agreement. */
  lemma SeedingKeepsAgreement(
    totals: map<string, real>, counts: map<string, nat>, seen: map<string, seq<real>>, skills: seq<string>)
    requires ScoresAgree(totals, counts, seen)
    ensures ScoresAgree(SeedDefaults(totals, skills, 0.0), SeedDefaults(counts, skills, 0), SeedDefaults(seen, skills, []))
  {
  }

  /** The `setdefault` loop over the skills, on the totals and counts maps. */
  method SeedScoreMaps(totals: map<string, real>, counts: map<string, nat>, skills: seq<string>)
    returns (newTotals: map<string, real>, newCounts: map<string, nat>)
    ensures newTotals == SeedDefaults(totals, skills, 0.0)
    ensures newCounts == SeedDefaults(counts, skills, 0)
  {
    newTotals, newCounts := totals, counts;
    for i := 0 to |skills|
      invariant newTotals == SeedDefaults(totals, skills[..i], 0.0)
      invariant newCounts == SeedDefaults(counts, skills[..i], 0)
    {
      var skill := skills[i];
      assert skills[..i + 1] == skills[..i] + [skill];
      SeedOneMore(totals, skills[..i], skill, 0.0);
      SeedOneMore(counts, skills[..i], skill, 0);
      if skill !in newTotals {
        newTotals := newTotals[skill := 0.0];
      }
      if skill !in newCounts {
        newCounts := newCounts[skill := 0];
      }
    }
    assert skills[..|skills|] == skills;
  }

  // ---------------------------------------------------------------------
  // Turn recording

  /**
   * The evaluation snapshot built from a reply: none when the `evaluation`
   * object is missing, null or empty; otherwise its fields with their defaults.
   */
  function SnapshotFrom(payload: Option<EvaluationPayload>): (r: Option<EvaluationSnapshot>)
    ensures r.None? <==> payload.None? || payload.value.keys == {}
    ensures r.Some? ==> && r.value.summary == payload.value.summary.GetOr("")
                        && r.value.strengths == payload.value.strengths.GetOr([])
                        && r.value.gaps == payload.value.gaps.GetOr([])
                        && r.value.rubricScores == payload.value.rubricScores.GetOr(map[])
                        && r.value.recommendation == payload.value.recommendation.GetOr("")
  {
    if payload.None? || payload.value.keys == {} then None
    else
      var p := payload.value;
      Some(EvaluationSnapshot(p.summary.GetOr(""), p.strengths.GetOr([]), p.gaps.GetOr([]),
                              p.rubricScores.GetOr(map[]), p.recommendation.GetOr("")))
  }

  /** The turn recorded for a reply. */
  function TurnFrom(content: Content, candidateMessage: Option<ChatMessage>, now: nat): (t: ChatTurn)
    ensures t.candidateMessage == candidateMessage
    ensures t.interviewerMessage == ChatMessage("interviewer", content.interviewerMessage.GetOr(""), now)
    ensures t.evaluation.None? <==> content.evaluation.None? || content.evaluation.value.keys == {}
    ensures t.nextBestAction == content.nextBestAction
  {
    ChatTurn(candidateMessage, ChatMessage("interviewer", content.interviewerMessage.GetOr(""), now),
             SnapshotFrom(content.evaluation), content.nextBestAction)
  }

  /** The rubric scores of a snapshot, all numbers, as `record_scores` receives them. */
  function SnapshotScores(snapshot: EvaluationSnapshot): (r: map<string, ScoreValue>)
    ensures r.Keys == snapshot.rubricScores.Keys
    ensures Numeric(r) == snapshot.rubricScores.Keys
    ensures forall s :: s in r ==> r[s] == Number(snapshot.rubricScores[s])
  {
    map s | s in snapshot.rubricScores :: Number(snapshot.rubricScores[s])
  }

  // ---------------------------------------------------------------------
  // File and link checks

  /** The upload extensions accepted. */
  const AllowedFileExtensions: set<string> := {".xlsx", ".xlsm", ".xlsb", ".xls", ".csv", ".tsv", ".ods"}

  /** The path components that name something: empty and "." components are dropped. */
  function NamedParts(parts: seq<string>): (r: seq<string>)
    ensures forall i :: 0 <= i < |r| ==> r[i] != "" && r[i] != "."
    ensures |r| <= |parts|
  {
    if parts == [] then []
    else if parts[0] == "" || parts[0] == "." then NamedParts(parts[1..])
    else [parts[0]] + NamedParts(parts[1..])
  }

  /** `Path(f).name`: the last component of the normalised path, or "". */
  function Basename(f: string): (r: string)
    ensures '/' !in r
  {
    var parts := NamedParts(Split(f, '/'));
    if parts == [] then "" else
      assert parts[|parts| - 1] in NamedParts(Split(f, '/'));
      NamedPartsFrom(Split(f, '/'), |parts| - 1);
      parts[|parts| - 1]
  }

  /** Every named part is one of the original parts. */
  lemma {:induction false} NamedPartsFrom(parts: seq<string>, i: nat)
    requires i < |NamedParts(parts)|
    ensures NamedParts(parts)[i] in parts
    decreases |parts|
  {
    if parts[0] == "" || parts[0] == "." {
      NamedPartsFrom(parts[1..], i);
    } else if i > 0 {
      NamedPartsFrom(parts[1..], i - 1);
    }
  }

  /** A trailing named component stays last among the named components. */
  lemma {:induction false} NamedPartsAppend(parts: seq<string>, n: string)
    requires n != "" && n != "."
    ensures NamedParts(parts + [n]) == NamedParts(parts) + [n]
    decreases |parts|
  {
    if parts == [] {
      assert NamedParts([n]) == [n] + NamedParts([]);
    } else {
      assert (parts + [n])[0] == parts[0];
      assert (parts + [n])[1..] == parts[1..] + [n];
      NamedPartsAppend(parts[1..], n);
    }
  }

  /** The basename of a path with directories is its last component: "dir/book.xlsx" gives "book.xlsx". */
  lemma BasenameOfPath(dir: string, n: string)
    requires '/' !in n && n != "" && n != "."
    ensures Basename(dir + "/" + n) == n
  {
    var xs := Split(dir, '/');
    assert Join(['/'], [n]) == n;
    JoinAppend(['/'], xs, [n]);
    assert Join(['/'], xs + [n]) == dir + "/" + n;
    assert forall i :: 0 <= i < |xs + [n]| ==> '/' !in (xs + [n])[i];
    SplitJoin(xs + [n], '/');
    NamedPartsAppend(xs, n);
  }

  /** The index of the last `c` in `s`, or -1 (`s.rfind(c)`). */
  function LastIndexOf(s: string, c: char): (r: int)
    ensures -1 <= r < |s|
    ensures r >= 0 ==> s[r] == c
    ensures forall j :: r < j < |s| ==> s[j] != c
    decreases |s|
  {
    if s == [] then -1
    else if s[|s| - 1] == c then |s| - 1
    else LastIndexOf(s[..|s| - 1], c)
  }

  /** `PurePath.suffix` of a name: from its last '.', unless that dot is first or last. */
  function Suffix(name: string): (r: string)
    ensures r == "" || (|r| >= 2 && r[0] == '.' && '.' !in r[1..] && EndsWith(name, r) && |r| < |name|)
  {
    var i := LastIndexOf(name, '.');
    if 0 < i < |name| - 1 then
      assert name[i..] == name[|name| - |name[i..]|..];
      assert forall c :: c in name[i..][1..] ==> c != '.' by {
        forall c | c in name[i..][1..] ensures c != '.' {
          var j :| 0 <= j < |name[i..][1..]| && name[i..][1..][j] == c;
          assert name[i + 1 + j] == c;
        }
      }
      name[i..]
    else ""
  }

  /** `Path(filename).suffix.lower()`. */
  function FileExtension(filename: string): string {
    Lower(Suffix(Basename(filename)))
  }

  /** The extension allow-list check of `store_file_artifact`. */
  predicate IsAllowedFile(filename: string) {
    FileExtension(filename) in AllowedFileExtensions
  }

  /** A string without '/' splits into itself alone. */
  lemma SplitWithoutSeparator(s: string, sep: char)
    requires sep !in s
    ensures Split(s, sep) == [s]
  {
    var r := Split(s, sep);
    assert |r| == 1;
  }

  /** A name without '/' that is neither empty nor "." is its own basename. */
  lemma PlainBasename(f: string)
    requires '/' !in f && f != "" && f != "."
    ensures Basename(f) == f
  {
    SplitWithoutSeparator(f, '/');
    assert NamedParts([f]) == [f];
  }

  /** `k` is the last position of `c` when `c` is there and nowhere after. */
  lemma LastIndexOfIs(s: string, c: char, k: int)
    requires 0 <= k < |s| && s[k] == c
    requires forall j :: k < j < |s| ==> s[j] != c
    ensures LastIndexOf(s, c) == k
  {
  }

  /**
   * A plain file name: a non-empty stem without '/' followed by a
   * one-dot extension has that extension, lowercased.
   */
  lemma PlainFileExtension(stem: string, ext: string)
    requires stem != "" && '/' !in stem
    requires |ext| >= 2 && ext[0] == '.' && '.' !in ext[1..] && '/' !in ext
    ensures FileExtension(stem + ext) == Lower(ext)
  {
    var f := stem + ext;
    assert '/' !in f;
    assert |f| >= 3;
    PlainBasename(f);
    ExtensionDotIsLast(stem, ext);
    assert f[|stem|..] == ext;
  }

  /** The dot that opens a one-dot extension is the last dot of the name. */
  lemma ExtensionDotIsLast(stem: string, ext: string)
    requires |ext| >= 2 && ext[0] == '.' && '.' !in ext[1..]
    ensures LastIndexOf(stem + ext, '.') == |stem|
  {
    var f := stem + ext;
    forall j | |stem| < j < |f| ensures f[j] != '.' {
      assert f[j] == ext[1..][j - |stem| - 1];
    }
    LastIndexOfIs(f, '.', |stem|);
  }

  /** Every allowed extension is accepted after any plain stem, in any letter case. */
  lemma AllowedExtensionsAccepted(stem: string, ext: string)
    requires stem != "" && '/' !in stem
    requires |ext| >= 2 && ext[0] == '.' && '.' !in ext[1..] && '/' !in ext
    ensures IsAllowedFile(stem + ext) <==> Lower(ext) in AllowedFileExtensions
  {
    PlainFileExtension(stem, ext);
  }

  /** A text file is refused. */
  lemma TextFileRejected(stem: string)
    requires stem != "" && '/' !in stem
    ensures !IsAllowedFile(stem + ".txt")
  {
    assert Lower(".txt") !in AllowedFileExtensions by {
      assert Lower(".txt") == ".txt";
    }
    AllowedExtensionsAccepted(stem, ".txt");
  }

  /** An upper-case workbook extension is accepted. */
  lemma UpperCaseWorkbookAccepted(stem: string)
    requires stem != "" && '/' !in stem
    ensures IsAllowedFile(stem + ".XLSX")
  {
    assert Lower(".XLSX") in AllowedFileExtensions by {
      assert Lower(".XLSX") == ".xlsx";
    }
    AllowedExtensionsAccepted(stem, ".XLSX");
  }

  /** The link check of `store_link_artifact`, on the trimmed URL. */
  predicate IsValidLink(cleaned: string) {
    cleaned != "" && (StartsWith(Lower(cleaned), "http://") || StartsWith(Lower(cleaned), "https://"))
  }

  /** A link is accepted exactly when its first characters spell http:// or https:// in any letter case. */
  lemma ValidLinkPrefix(cleaned: string)
    ensures IsValidLink(cleaned) <==>
              (|cleaned| >= 7 && Lower(cleaned[..7]) == "http://") || (|cleaned| >= 8 && Lower(cleaned[..8]) == "https://")
  {
    var l := Lower(cleaned);
    if |cleaned| >= 7 {
      assert Lower(cleaned[..7]) == l[..7];
    }
    if |cleaned| >= 8 {
      assert Lower(cleaned[..8]) == l[..8];
    }
  }

  /** A trimmed https:// link is accepted, whatever follows the scheme. */
  lemma HttpsLinkAccepted(rest: string)
    ensures IsValidLink(Strip("https://" + rest))
  {
    var c := Strip("https://" + rest);
    StripPreservesLeadingWord("https://", rest);
    var l := Lower(c);
    forall i | 0 <= i < 8 ensures l[i] == "https://"[i] {
      assert c[i] == "https://"[i];
    }
    assert l[..8] == "https://";
  }

  /** An ftp:// link is refused. */
  lemma FtpLinkRejected(rest: string)
    ensures !IsValidLink(Strip("ftp://" + rest))
  {
    var c := Strip("ftp://" + rest);
    StripPreservesLeadingWord("ftp://", rest);
    assert c[0] == 'f';
    var l := Lower(c);
    assert l[0] == 'f';
    FirstCharMismatch(l, "http://");
    FirstCharMismatch(l, "https://");
  }

  /** A blank link is refused. */
  lemma BlankLinkRejected(blank: string)
    requires AllSpace(blank)
    ensures !IsValidLink(Strip(blank))
  {
    StripEmptyIffAllSpace(blank);
  }

  /** Stripping keeps a leading word that starts and ends with non-space characters. */
  lemma StripPreservesLeadingWord(w: string, rest: string)
    requires |w| >= 2 && !IsSpace(w[0]) && !IsSpace(w[|w| - 1])
    ensures StartsWith(Strip(w + rest), w)
  {
    var s := w + rest;
    assert s[0] == w[0] && s[|w| - 1] == w[|w| - 1];
    var l := StripLeft(s);
    assert l == s;
    var r := StripRight(l);
    assert |r| >= |w|;
    assert r[..|w|] == s[..|w|];
  }

  /** `str(session_dir / f"{artifact_id}{extension}")`. */
  function StoragePath(storageDir: string, sessionId: string, artifactId: string, extension: string): (r: string)
    ensures EndsWith(r, artifactId + extension)
    ensures StartsWith(r, storageDir + "/" + sessionId + "/")
  {
    var r := storageDir + "/" + sessionId + "/" + (artifactId + extension);
    assert r[|r| - |artifactId + extension|..] == artifactId + extension;
    assert r[..|storageDir + "/" + sessionId + "/"|] == storageDir + "/" + sessionId + "/";
    r
  }

  // ---------------------------------------------------------------------
  // Artifact listing

  /** Newest first: upload times never increase along the list. */
  predicate NewestFirst(xs: seq<SubmissionArtifact>) {
    forall i, j :: 0 <= i < j < |xs| ==> xs[i].uploadedAt >= xs[j].uploadedAt
  }

  /** Puts `x` before the first artifact not newer than it. */
  function InsertNewestFirst(x: SubmissionArtifact, xs: seq<SubmissionArtifact>): (r: seq<SubmissionArtifact>)
    requires NewestFirst(xs)
    ensures NewestFirst(r)
    ensures multiset(r) == multiset(xs) + multiset{x}
    ensures |r| == |xs| + 1
    ensures r != [] && (r[0] == x || (xs != [] && r[0] == xs[0]))
  {
    if xs == [] || x.uploadedAt >= xs[0].uploadedAt then [x] + xs
    else
      var tail := InsertNewestFirst(x, xs[1..]);
      assert xs == [xs[0]] + xs[1..];
      [xs[0]] + tail
  }

  /** `sorted(artifacts, key=uploaded_at, reverse=True)`, keeping the given order among equal times. */
  function SortNewestFirst(xs: seq<SubmissionArtifact>): (r: seq<SubmissionArtifact>)
    ensures NewestFirst(r)
    ensures multiset(r) == multiset(xs)
  {
    if xs == [] then []
    else
      assert xs == [xs[0]] + xs[1..];
      InsertNewestFirst(xs[0], SortNewestFirst(xs[1..]))
  }

  // ---------------------------------------------------------------------
  // Turn bookkeeping on scores

  /** The scores a turn hands to `record_scores`: its evaluation's rubric scores, or none. */
  function TurnScores(turn: ChatTurn): (r: map<string, ScoreValue>)
    ensures turn.evaluation.None? ==> r == map[]
    ensures turn.evaluation.Some? ==> r == SnapshotScores(turn.evaluation.value)
  {
    if turn.evaluation.Some? then SnapshotScores(turn.evaluation.value) else map[]
  }

  /**
   * The totals after a turn: its numeric scores added, then every rubric
   * skill seeded at 0 where absent.
   */
  function TotalsAfterTurn(totals: map<string, real>, turn: ChatTurn): (r: map<string, real>)
    ensures forall k :: k in r <==> k in totals || k in Numeric(TurnScores(turn)) || k in SkillNames()
    ensures forall k :: k in Numeric(TurnScores(turn)) ==> r[k] == TotalOf(totals, k) + TurnScores(turn)[k].value
    ensures forall k :: k in totals && k !in Numeric(TurnScores(turn)) ==> r[k] == totals[k]
    ensures forall k :: k in SkillNames() && k !in totals && k !in Numeric(TurnScores(turn)) ==> r[k] == 0.0
  {
    SeedDefaults(AddedTotals(totals, TurnScores(turn)), SkillNames(), 0.0)
  }

  /** The counts after a turn: one more per numeric score, then every rubric skill seeded at 0 where absent. */
  function CountsAfterTurn(counts: map<string, nat>, turn: ChatTurn): (r: map<string, nat>)
    ensures forall k :: k in r <==> k in counts || k in Numeric(TurnScores(turn)) || k in SkillNames()
    ensures forall k :: k in Numeric(TurnScores(turn)) ==> r[k] == CountOf(counts, k) + 1
    ensures forall k :: k in counts && k !in Numeric(TurnScores(turn)) ==> r[k] == counts[k]
    ensures forall k :: k in SkillNames() && k !in counts && k !in Numeric(TurnScores(turn)) ==> r[k] == 0
  {
    SeedDefaults(AddedCounts(counts, TurnScores(turn)), SkillNames(), 0)
  }

  /** The scores seen per skill after a turn. */
  ghost function SeenAfterTurn(seen: map<string, seq<real>>, turn: ChatTurn): map<string, seq<real>> {
    SeedDefaults(AddedSeen(seen, TurnScores(turn)), SkillNames(), [])
  }

  /** A turn keeps totals and counts equal to the sums and sizes of the scores seen. */
  lemma TurnKeepsAgreement(totals: map<string, real>, counts: map<string, nat>, seen: map<string, seq<real>>, turn: ChatTurn)
    requires ScoresAgree(totals, counts, seen)
    ensures ScoresAgree(TotalsAfterTurn(totals, turn), CountsAfterTurn(counts, turn), SeenAfterTurn(seen, turn))
  {
    RecordingKeepsAgreement(totals, counts, seen, TurnScores(turn));
  }

  /** A turn without an evaluation only seeds the rubric skills. */
  lemma NoEvaluationOnlySeeds(totals: map<string, real>, counts: map<string, nat>, seen: map<string, seq<real>>, turn: ChatTurn)
    requires turn.evaluation.None?
    ensures TotalsAfterTurn(totals, turn) == SeedDefaults(totals, SkillNames(), 0.0)
    ensures CountsAfterTurn(counts, turn) == SeedDefaults(counts, SkillNames(), 0)
    ensures SeenAfterTurn(seen, turn) == SeedDefaults(seen, SkillNames(), [])
  {
    assert AddedTotals(totals, TurnScores(turn)) == totals;
    assert AddedCounts(counts, TurnScores(turn)) == counts;
    assert AddedSeen(seen, TurnScores(turn)) == seen;
  }

  /** The source of a stored artifact determines which of its fields are set. */
  predicate ArtifactWellFormed(a: SubmissionArtifact) {
    match a.source
    case File => a.filename.Some? && IsAllowedFile(a.filename.value) && a.sizeBytes.Some? && a.storagePath.Some? && a.url.None?
    case Link => a.url.Some? && IsValidLink(a.url.value) && a.filename.None? && a.sizeBytes.None? && a.storagePath.None?
  }

  // ---------------------------------------------------------------------
  // Sessions

  /** One interview: its fixed setup and the state the service updates in place. */
  class InterviewSession {
    const sessionId: string
    const candidate: CandidateProfile
    const scenario: string
    const focusAreas: seq<FocusArea>
    const workbookPlatform: WorkbookPlatform
    const createdAt: nat
    var messages: seq<Message>
    var transcript: seq<ChatTurn>
    var scoreTotals: map<string, real>
    var scoreCounts: map<string, nat>
    var artifacts: map<string, SubmissionArtifact>
    /** The artifact ids in insertion order, which is the iteration order of the `artifacts` dict. */
    var artifactOrder: seq<string>
    var updatedAt: nat
    /** The numeric scores recorded per skill, in arrival order. */
    ghost var seen: map<string, seq<real>>

    /** Totals and counts track the scores seen; the artifact order lists each artifact once. */
    ghost predicate Valid()
      reads this
    {
      && ScoresAgree(scoreTotals, scoreCounts, seen)
      && (forall i, j :: 0 <= i < j < |artifactOrder| ==> artifactOrder[i] != artifactOrder[j])
      && (forall a :: a in artifacts <==> a in artifactOrder)
      && (forall a :: a in artifacts ==> artifacts[a].id == a && ArtifactWellFormed(artifacts[a]))
    }

    /** A new session: empty history, transcript, scores and artifacts. */
    constructor (sessionId: string, candidate: CandidateProfile, scenario: string,
                 focusAreas: seq<FocusArea>, workbookPlatform: WorkbookPlatform, now: nat)
      ensures Valid()
      ensures this.sessionId == sessionId && this.candidate == candidate && this.scenario == scenario
      ensures this.focusAreas == focusAreas && this.workbookPlatform == workbookPlatform
      ensures createdAt == now && updatedAt == now
      ensures messages == [] && transcript == []
      ensures scoreTotals == map[] && scoreCounts == map[] && artifacts == map[] && artifactOrder == []
    {
      this.sessionId := sessionId;
      this.candidate := candidate;
      this.scenario := scenario;
      this.focusAreas := focusAreas;
      this.workbookPlatform := workbookPlatform;
      createdAt := now;
      updatedAt := now;
      messages := [];
      transcript := [];
      scoreTotals := map[];
      scoreCounts := map[];
      artifacts := map[];
      artifactOrder := [];
      seen := map[];
    }

    /**
     * `record_scores`: adds each numeric score to its skill's total and count,
     * skips the rest, and returns the new average of each skill it updated.
     */
    method RecordScores(scores: map<string, ScoreValue>) returns (updated: map<string, real>)
      requires Valid()
      modifies this
      ensures Valid()
      ensures scoreTotals == AddedTotals(old(scoreTotals), scores)
      ensures scoreCounts == AddedCounts(old(scoreCounts), scores)
      ensures seen == AddedSeen(old(seen), scores)
      ensures updated.Keys == Numeric(scores)
      ensures forall s :: s in updated ==> updated[s] == Mean(seen[s])
      ensures messages == old(messages) && transcript == old(transcript) && updatedAt == old(updatedAt)
      ensures artifacts == old(artifacts) && artifactOrder == old(artifactOrder)
    {
      scoreTotals, scoreCounts, updated := AccumulateScores(scoreTotals, scoreCounts, scores);
      RecordingKeepsAgreement(old(scoreTotals), old(scoreCounts), seen, scores);
      seen := AddedSeen(seen, scores);
      forall k | k in updated ensures updated[k] == Mean(seen[k]) {
        AverageIsMean(scoreTotals, scoreCounts, seen, k);
      }
    }

    /**
     * `running_scores`: the average of every skill with a positive count;
     * each is the mean of the scores seen for that skill.
     */
    function RunningScores(): (r: map<string, real>)
      reads this
      ensures forall s :: s in r <==> s in scoreTotals && s in scoreCounts && scoreCounts[s] > 0
      ensures Valid() ==> forall s :: s in r <==> s in seen && seen[s] != []
      ensures Valid() ==> forall s :: s in r ==> r[s] == Mean(seen[s])
    {
      map s | s in scoreTotals && s in scoreCounts && scoreCounts[s] > 0 :: Ratio(scoreTotals[s], scoreCounts[s])
    }

    /** `score_totals.setdefault(skill, 0.0)` and `score_counts.setdefault(skill, 0)` for each skill, in order. */
    method SeedSkills(skills: seq<string>)
      requires Valid()
      modifies this
      ensures Valid()
      ensures scoreTotals == SeedDefaults(old(scoreTotals), skills, 0.0)
      ensures scoreCounts == SeedDefaults(old(scoreCounts), skills, 0)
      ensures seen == SeedDefaults(old(seen), skills, [])
      ensures messages == old(messages) && transcript == old(transcript) && updatedAt == old(updatedAt)
      ensures artifacts == old(artifacts) && artifactOrder == old(artifactOrder)
    {
      SeedingKeepsAgreement(scoreTotals, scoreCounts, seen, skills);
      scoreTotals, scoreCounts := SeedScoreMaps(scoreTotals, scoreCounts, skills);
      seen := SeedDefaults(seen, skills, []);
    }

    /** The artifacts in insertion order. */
    function ArtifactsInOrder(): (r: seq<SubmissionArtifact>)
      reads this
      requires Valid()
      ensures |r| == |artifactOrder| == |artifacts|
      ensures forall i :: 0 <= i < |r| ==> r[i] == artifacts[artifactOrder[i]]
      ensures forall a :: a in artifacts ==> artifacts[a] in r
    {
      DistinctCard(artifactOrder, artifacts.Keys);
      ValuesAtCovers(artifacts, artifactOrder);
      ValuesAt(artifacts, artifactOrder)
    }

    /** `session.artifacts[artifact.id] = artifact` followed by `session.updated_at = now`. */
    method AddArtifact(a: SubmissionArtifact, now: nat)
      requires Valid() && a.id !in artifacts && ArtifactWellFormed(a)
      modifies this
      ensures Valid()
      ensures artifacts == old(artifacts)[a.id := a] && artifactOrder == old(artifactOrder) + [a.id]
      ensures updatedAt == now
      ensures messages == old(messages) && transcript == old(transcript)
      ensures scoreTotals == old(scoreTotals) && scoreCounts == old(scoreCounts) && seen == old(seen)
    {
      artifacts := artifacts[a.id := a];
      artifactOrder := artifactOrder + [a.id];
      updatedAt := now;
    }
  }

  // ---------------------------------------------------------------------
  // Artifact checks and records

  /** The checks of `store_file_artifact` after the session lookup: the extension first, then the size. */
  function UploadCheck(filename: string, size: nat, maxUploadBytes: int): (r: Outcome<Error>)
    ensures r.Pass? <==> IsAllowedFile(filename) && size <= maxUploadBytes
    ensures !IsAllowedFile(filename) ==> r == Fail(ValueError(UnsupportedFileMessage))
    ensures IsAllowedFile(filename) && size > maxUploadBytes ==> r == Fail(ValueError(FileTooLargeMessage))
  {
    if FileExtension(filename) !in AllowedFileExtensions then Fail(ValueError(UnsupportedFileMessage))
    else if size > maxUploadBytes then Fail(ValueError(FileTooLargeMessage))
    else Pass
  }

  /** A file exactly at the limit passes the size check; one byte more does not. */
  lemma UploadLimitInclusive(filename: string, maxUploadBytes: nat)
    requires IsAllowedFile(filename)
    ensures UploadCheck(filename, maxUploadBytes, maxUploadBytes).Pass?
    ensures UploadCheck(filename, maxUploadBytes + 1, maxUploadBytes) == Fail(ValueError(FileTooLargeMessage))
  {
  }

  /** The artifact `store_file_artifact` records for an accepted upload. */
  function FileArtifactRecord(
    id: string, filename: string, contentType: Option<string>, size: nat, description: Option<string>,
    now: nat, storageDir: string, sessionId: string): (a: SubmissionArtifact)
    requires IsAllowedFile(filename)
    ensures a.id == id && a.source == File && a.uploadedAt == now
    ensures a.filename == Some(Basename(filename)) && '/' !in a.filename.value
    ensures a.contentType == contentType && a.sizeBytes == Some(size)
    ensures a.description == Strip(description.GetOr("")) && IsTrimmed(a.description)
    ensures a.url.None? && a.storagePath.Some?
    ensures EndsWith(a.storagePath.value, id + FileExtension(filename))
    ensures StartsWith(a.storagePath.value, storageDir + "/" + sessionId + "/")
    ensures ArtifactWellFormed(a)
  {
    var a := SubmissionArtifact(id, File, Some(Basename(filename)), contentType, Some(size), now,
                                Strip(description.GetOr("")), None,
                                Some(StoragePath(storageDir, sessionId, id, FileExtension(filename))));
    PlainNameAllowed(filename);
    a
  }

  /** The recorded name of an allowed upload has the same, allowed, extension. */
  lemma PlainNameAllowed(filename: string)
    requires IsAllowedFile(filename)
    ensures FileExtension(Basename(filename)) == FileExtension(filename)
    ensures IsAllowedFile(Basename(filename))
  {
    var b := Basename(filename);
    assert Suffix(b) != "" by {
      assert |Lower(Suffix(b))| == |Suffix(b)|;
      assert "" !in AllowedFileExtensions;
    }
    PlainBasename(b);
  }

  /** The artifact `store_link_artifact` records for an accepted link. */
  function LinkArtifactRecord(id: string, url: string, description: Option<string>, now: nat): (a: SubmissionArtifact)
    requires IsValidLink(Strip(url))
    ensures a.id == id && a.source == Link && a.uploadedAt == now
    ensures a.url == Some(Strip(url)) && IsTrimmed(a.url.value)
    ensures a.filename.None? && a.contentType.None? && a.sizeBytes.None? && a.storagePath.None?
    ensures a.description == Strip(description.GetOr("")) && IsTrimmed(a.description)
    ensures ArtifactWellFormed(a)
  {
    SubmissionArtifact(id, Link, None, None, None, now, Strip(description.GetOr("")), Some(Strip(url)), None)
  }

  // ---------------------------------------------------------------------
  // The service

  /** The two messages a session opens with: the system prompt, then the bootstrap prompt. */
  function OpeningMessages(payload: SessionCreateRequest): seq<Message> {
    [Message("system", SystemPrompt()),
     Message("user", BootstrapPrompt(payload.candidate, payload.scenario, payload.candidate.focusAreas,
                                     payload.workbookPlatform, None))]
  }

  /**
   * The session store. The language model is the `llm` argument of the
   * operations that consult it, and identifiers come from a counter. The
   * upload directory is the `files` map that `StoreFileArtifact` is given
   * and returns.
   */
  class InterviewService {
    const storageDir: string
    const maxUploadBytes: int
    var sessions: map<string, InterviewSession>
    /** How many identifiers have been drawn; it stands for `uuid4`. */
    var nextId: nat
    /** Every identifier drawn so far. */
    ghost var issued: set<string>

    /** Each session is filed under its own id; every id in use was drawn from the supply. */
    ghost predicate Valid()
      reads this, sessions.Values
    {
      && (forall k :: k in sessions ==> sessions[k].sessionId == k && sessions[k].Valid())
      && (forall k :: k in sessions ==> k in issued)
      && (forall k, a :: k in sessions && a in sessions[k].artifacts ==> a in issued)
      && (forall n: nat :: FreshId(n) in issued ==> n < nextId)
    }

    /** A service with no sessions; the defaults apply where no directory or limit is given. */
    constructor (storageDir: Option<string>, maxUploadBytes: Option<int>)
      ensures Valid()
      ensures this.storageDir == storageDir.GetOr(DefaultStorageDir)
      ensures this.maxUploadBytes == maxUploadBytes.GetOr(DefaultMaxUploadBytes)
      ensures sessions == map[] && nextId == 0
    {
      this.storageDir := storageDir.GetOr(DefaultStorageDir);
      this.maxUploadBytes := maxUploadBytes.GetOr(DefaultMaxUploadBytes);
      sessions := map[];
      nextId := 0;
      issued := {};
    }

    /** `str(uuid4())`: an identifier never drawn before. */
    method DrawId() returns (id: string)
      requires Valid()
      modifies this
      ensures Valid()
      ensures id == FreshId(old(nextId)) && id !in old(issued)
      ensures nextId == old(nextId) + 1 && issued == old(issued) + {id}
      ensures sessions == old(sessions)
    {
      id := FreshId(nextId);
      forall n: nat | FreshId(n) == id ensures n == nextId {
        FreshIdInjective(n, nextId);
      }
      nextId := nextId + 1;
      issued := issued + {id};
    }

    /** `self._sessions[session_id] = session` for a new session under a freshly drawn id. */
    method Register(session: InterviewSession)
      requires Valid() && session.Valid()
      requires session.sessionId in issued && session.sessionId !in sessions && session.artifacts == map[]
      modifies this
      ensures Valid()
      ensures sessions == old(sessions)[session.sessionId := session]
      ensures nextId == old(nextId) && issued == old(issued)
    {
      sessions := sessions[session.sessionId := session];
    }

    /** Files a new artifact under a freshly drawn id in a filed session and stamps the session. */
    method FileArtifact(sessionId: string, a: SubmissionArtifact, now: nat)
      requires Valid() && sessionId in sessions
      requires a.id in issued && a.id !in sessions[sessionId].artifacts && ArtifactWellFormed(a)
      modifies sessions[sessionId]
      ensures Valid()
      ensures var s := sessions[sessionId];
        && s.artifacts == old(s.artifacts)[a.id := a]
        && s.artifactOrder == old(s.artifactOrder) + [a.id]
        && s.updatedAt == now
        && s.messages == old(s.messages) && s.transcript == old(s.transcript)
        && s.scoreTotals == old(s.scoreTotals) && s.scoreCounts == old(s.scoreCounts) && s.seen == old(s.seen)
      ensures GetArtifact(sessionId, a.id) == Success(a)
    {
      sessions[sessionId].AddArtifact(a, now);
    }

    /** `_get_session`: the session filed under the id, or a KeyError naming it. */
    function GetSession(sessionId: string): (r: Result<InterviewSession, Error>)
      reads this
      ensures r.Success? <==> sessionId in sessions
      ensures r.Success? ==> r.value == sessions[sessionId]
      ensures r.Failure? ==> r.error == KeyError(UnknownSessionMessage(sessionId))
    {
      if sessionId in sessions then Success(sessions[sessionId])
      else Failure(KeyError(UnknownSessionMessage(sessionId)))
    }

    /** The session an operation on `sessionId` may change: the one filed under it, if any. */
    function SessionFrame(sessionId: string): set<object>
      reads this
    {
      if sessionId in sessions then {sessions[sessionId]} else {}
    }

    /**
     * `_record_ai_turn`: records the reply's evaluation scores, appends exactly
     * one turn and one assistant message, and seeds every rubric skill.
     */
    method RecordAiTurn(session: InterviewSession, content: Content, candidateMessage: Option<ChatMessage>, now: nat)
      returns (turn: ChatTurn)
      requires session.Valid()
      modifies session
      ensures session.Valid()
      ensures turn == TurnFrom(content, candidateMessage, now)
      ensures session.transcript == old(session.transcript) + [turn]
      ensures session.messages == old(session.messages) + [Message("assistant", content.text)]
      ensures session.scoreTotals == TotalsAfterTurn(old(session.scoreTotals), turn)
      ensures session.scoreCounts == CountsAfterTurn(old(session.scoreCounts), turn)
      ensures session.seen == SeenAfterTurn(old(session.seen), turn)
      ensures session.updatedAt == now
      ensures session.artifacts == old(session.artifacts) && session.artifactOrder == old(session.artifactOrder)
    {
      turn := TurnFrom(content, candidateMessage, now);
      var updated: map<string, real> := map[];
      if turn.evaluation.Some? {
        updated := session.RecordScores(SnapshotScores(turn.evaluation.value));
      } else {
        NoEvaluationOnlySeeds(session.scoreTotals, session.scoreCounts, session.seen, turn);
      }
      session.transcript := session.transcript + [turn];
      session.messages := session.messages + [Message("assistant", content.text)];
      session.updatedAt := now;
      session.SeedSkills(SkillNames());
      if updated != map[] {
        var _ := session.RunningScores();
      }
    }

    /**
     * `create_session`: opens a session with the system and bootstrap prompts,
     * asks the model for the first turn, and files the session only when the
     * model answered. The identifier is drawn either way.
     */
    method CreateSession(payload: SessionCreateRequest, llm: seq<Message> -> Option<Content>, now: nat)
      returns (r: Result<SessionCreateResponse, Error>)
      requires Valid()
      modifies this
      ensures Valid()
      ensures nextId == old(nextId) + 1
      ensures r.Success? <==> llm(OpeningMessages(payload)).Some?
      ensures r.Failure? ==> r.error == LlmFailure && sessions == old(sessions)
      ensures r.Success? ==>
        var id := r.value.sessionId;
        var reply := llm(OpeningMessages(payload)).value;
        && id == FreshId(old(nextId)) && id !in old(sessions)
        && id in sessions && fresh(sessions[id])
        && sessions == old(sessions)[id := sessions[id]]
        && sessions[id].candidate == payload.candidate
        && sessions[id].scenario == payload.scenario
        && sessions[id].focusAreas == payload.candidate.focusAreas
        && sessions[id].workbookPlatform == payload.workbookPlatform
        && sessions[id].createdAt == now && sessions[id].updatedAt == now
        && r.value.firstTurn == TurnFrom(reply, None, now)
        && sessions[id].transcript == [r.value.firstTurn]
        && sessions[id].messages == OpeningMessages(payload) + [Message("assistant", reply.text)]
        && sessions[id].scoreTotals == TotalsAfterTurn(map[], r.value.firstTurn)
        && sessions[id].scoreCounts == CountsAfterTurn(map[], r.value.firstTurn)
        && sessions[id].artifacts == map[]
    {
      r := StartSession(payload, OpeningMessages(payload), llm, now);
    }

    /**
     * `create_session` once its opening messages are built: draws the
     * identifier, opens the session on `opening`, and files it when the
     * model answered.
     */
    method StartSession(payload: SessionCreateRequest, opening: seq<Message>, llm: seq<Message> -> Option<Content>, now: nat)
      returns (r: Result<SessionCreateResponse, Error>)
      requires Valid()
      modifies this
      ensures Valid()
      ensures nextId == old(nextId) + 1
      ensures r.Success? <==> llm(opening).Some?
      ensures r.Failure? ==> r.error == LlmFailure && sessions == old(sessions)
      ensures r.Success? ==>
        var id := r.value.sessionId;
        var reply := llm(opening).value;
        && id == FreshId(old(nextId)) && id !in old(sessions)
        && id in sessions && fresh(sessions[id])
        && sessions == old(sessions)[id := sessions[id]]
        && sessions[id].candidate == payload.candidate
        && sessions[id].scenario == payload.scenario
        && sessions[id].focusAreas == payload.candidate.focusAreas
        && sessions[id].workbookPlatform == payload.workbookPlatform
        && sessions[id].createdAt == now && sessions[id].updatedAt == now
        && r.value.firstTurn == TurnFrom(reply, None, now)
        && sessions[id].transcript == [r.value.firstTurn]
        && sessions[id].messages == opening + [Message("assistant", reply.text)]
        && sessions[id].scoreTotals == TotalsAfterTurn(map[], r.value.firstTurn)
        && sessions[id].scoreCounts == CountsAfterTurn(map[], r.value.firstTurn)
        && sessions[id].artifacts == map[]
    {
      var id := DrawId();
      var session, turn := OpenSession(id, payload, opening, llm, now);
      if session == null {
        return Failure(LlmFailure);
      }
      Register(session);
      r := Success(SessionCreateResponse(id, turn));
    }

    /**
     * The unfiled part of `create_session`: a new session under `id` whose
     * history starts with the `opening` messages and, when the model answers
     * them, holds its first turn; `null` when the model fails.
     */
    method OpenSession(id: string, payload: SessionCreateRequest, opening: seq<Message>,
                       llm: seq<Message> -> Option<Content>, now: nat)
      returns (session: InterviewSession?, turn: ChatTurn)
      ensures session == null <==> llm(opening).None?
      ensures session != null ==>
        var reply := llm(opening).value;
        && fresh(session) && session.Valid() && session.sessionId == id
        && session.candidate == payload.candidate
        && session.scenario == payload.scenario
        && session.focusAreas == payload.candidate.focusAreas
        && session.workbookPlatform == payload.workbookPlatform
        && session.createdAt == now && session.updatedAt == now
        && turn == TurnFrom(reply, None, now)
        && session.transcript == [turn]
        && session.messages == opening + [Message("assistant", reply.text)]
        && session.scoreTotals == TotalsAfterTurn(map[], turn)
        && session.scoreCounts == CountsAfterTurn(map[], turn)
        && session.artifacts == map[]
    {
      var started := new InterviewSession(id, payload.candidate, payload.scenario, payload.candidate.focusAreas,
                                          payload.workbookPlatform, now);
      started.messages := started.messages + opening;
      assert started.messages == opening;
      var content := llm(started.messages);
      if content.None? {
        return null, TurnFrom(Content(None, None, None, None, None, None, ""), None, now);
      }
      turn := RecordAiTurn(started, content.value, None, now);
      session := started;
    }

    /**
     * `chat`: appends the candidate's message, asks the model, and records the
     * reply as one more turn. A failed call leaves the candidate's message in
     * the history and changes nothing else.
     */
    method Chat(sessionId: string, message: string, llm: seq<Message> -> Option<Content>, now: nat)
      returns (r: Result<ChatResponse, Error>)
      requires Valid()
      modifies SessionFrame(sessionId)
      ensures Valid()
      ensures sessionId !in sessions ==> r == Failure(KeyError(UnknownSessionMessage(sessionId)))
      ensures sessionId in sessions && llm(old(sessions[sessionId].messages) + [Message("user", message)]).None? ==>
        var s := sessions[sessionId];
        && r == Failure(LlmFailure)
        && s.messages == old(s.messages) + [Message("user", message)]
        && s.transcript == old(s.transcript) && s.updatedAt == old(s.updatedAt)
        && s.scoreTotals == old(s.scoreTotals) && s.scoreCounts == old(s.scoreCounts) && s.seen == old(s.seen)
        && s.artifacts == old(s.artifacts) && s.artifactOrder == old(s.artifactOrder)
      ensures sessionId in sessions && llm(old(sessions[sessionId].messages) + [Message("user", message)]).Some? ==>
        var s := sessions[sessionId];
        var sent := old(s.messages) + [Message("user", message)];
        var reply := llm(sent).value;
        && r.Success?
        && r.value.turn == TurnFrom(reply, Some(ChatMessage("candidate", message, now)), now)
        && s.messages == sent + [Message("assistant", reply.text)]
        && s.transcript == old(s.transcript) + [r.value.turn]
        && s.scoreTotals == TotalsAfterTurn(old(s.scoreTotals), r.value.turn)
        && s.scoreCounts == CountsAfterTurn(old(s.scoreCounts), r.value.turn)
        && s.seen == SeenAfterTurn(old(s.seen), r.value.turn)
        && s.updatedAt == now
        && s.artifacts == old(s.artifacts) && s.artifactOrder == old(s.artifactOrder)
        && r.value.totalTurns == |s.transcript|
        && r.value.runningScores == s.RunningScores()
    {
      var found := GetSession(sessionId);
      if found.Failure? {
        return Failure(found.error);
      }
      var session := found.value;
      var turn := Reply(session, message, llm, now);
      if turn.None? {
        return Failure(LlmFailure);
      }
      var runningScores := session.RunningScores();
      r := Success(ChatResponse(turn.value, runningScores, |session.transcript|));
    }

    /**
     * The body of `chat` on a found session: the candidate's message goes into
     * the history before the model is asked; the model's reply, when there is
     * one, is recorded as the next turn.
     */
    method Reply(session: InterviewSession, message: string, llm: seq<Message> -> Option<Content>, now: nat)
      returns (turn: Option<ChatTurn>)
      requires session.Valid()
      modifies session
      ensures session.Valid()
      ensures turn.Some? <==> llm(old(session.messages) + [Message("user", message)]).Some?
      ensures session.artifacts == old(session.artifacts) && session.artifactOrder == old(session.artifactOrder)
      ensures turn.None? ==>
        && session.messages == old(session.messages) + [Message("user", message)]
        && session.transcript == old(session.transcript) && session.updatedAt == old(session.updatedAt)
        && session.scoreTotals == old(session.scoreTotals) && session.scoreCounts == old(session.scoreCounts)
        && session.seen == old(session.seen)
      ensures turn.Some? ==>
        var sent := old(session.messages) + [Message("user", message)];
        var reply := llm(sent).value;
        && turn.value == TurnFrom(reply, Some(ChatMessage("candidate", message, now)), now)
        && session.messages == sent + [Message("assistant", reply.text)]
        && session.transcript == old(session.transcript) + [turn.value]
        && session.scoreTotals == TotalsAfterTurn(old(session.scoreTotals), turn.value)
        && session.scoreCounts == CountsAfterTurn(old(session.scoreCounts), turn.value)
        && session.seen == SeenAfterTurn(old(session.seen), turn.value)
        && session.updatedAt == now
    {
      var candidateMessage := ChatMessage("candidate", message, now);
      session.messages := session.messages + [Message("user", message)];
      var content := llm(session.messages);
      if content.None? {
        return None;
      }
      var recorded := RecordAiTurn(session, content.value, Some(candidateMessage), now);
      turn := Some(recorded);
    }

    /**
     * `summarize`: asks the model for a debrief over the history plus one
     * summary request, without recording anything; missing reply fields fall
     * back to empty values. `dumps` is the JSON rendering of the transcript.
     */
    function Summarize(sessionId: string, llm: seq<Message> -> Option<Content>, dumps: seq<ChatTurn> -> string)
      : (r: Result<SummaryResponse, Error>)
      reads this, sessions.Values
      ensures sessionId !in sessions ==> r == Failure(KeyError(UnknownSessionMessage(sessionId)))
      ensures sessionId in sessions ==>
        var s := sessions[sessionId];
        var request := s.messages + [Message("user", SummaryPrompt(s.candidate, dumps(s.transcript)))];
        && (r.Failure? <==> llm(request).None?)
        && (r.Failure? ==> r.error == LlmFailure)
        && (r.Success? ==>
              && r.value.sessionId == sessionId
              && r.value.transcript == s.transcript
              && r.value.finalSummary == llm(request).value.overallSummary.GetOr("")
              && r.value.recommendedNextSteps == llm(request).value.nextSteps.GetOr([])
              && r.value.overallScores == llm(request).value.scorecard.GetOr(map[]))
    {
      match GetSession(sessionId)
      case Failure(e) => Failure(e)
      case Success(s) =>
        var request := s.messages + [Message("user", SummaryPrompt(s.candidate, dumps(s.transcript)))];
        match llm(request)
        case None => Failure(LlmFailure)
        case Some(content) =>
          Success(SummaryResponse(sessionId, s.transcript, content.overallSummary.GetOr(""),
                                  content.nextSteps.GetOr([]), content.scorecard.GetOr(map[])))
    }

    /** `list_artifacts`: the session's artifacts, each once, newest first. */
    function ListArtifacts(sessionId: string): (r: Result<seq<SubmissionArtifact>, Error>)
      reads this, sessions.Values
      requires Valid()
      ensures sessionId !in sessions ==> r == Failure(KeyError(UnknownSessionMessage(sessionId)))
      ensures sessionId in sessions ==>
        && r.Success?
        && NewestFirst(r.value)
        && |r.value| == |sessions[sessionId].artifacts|
        && (forall a :: a in r.value <==> a in sessions[sessionId].artifacts.Values)
    {
      match GetSession(sessionId)
      case Failure(e) => Failure(e)
      case Success(s) =>
        var listed := SortNewestFirst(s.ArtifactsInOrder());
        ListingCoversArtifacts(s.artifacts, s.artifactOrder, s.ArtifactsInOrder(), listed);
        Success(listed)
    }

    /** `get_artifact`: the artifact filed under the id in the session, or a KeyError naming what is missing. */
    function GetArtifact(sessionId: string, artifactId: string): (r: Result<SubmissionArtifact, Error>)
      reads this, sessions.Values
      ensures sessionId !in sessions ==> r == Failure(KeyError(UnknownSessionMessage(sessionId)))
      ensures sessionId in sessions && artifactId !in sessions[sessionId].artifacts ==>
                r == Failure(KeyError(UnknownArtifactMessage(artifactId)))
      ensures sessionId in sessions && artifactId in sessions[sessionId].artifacts ==>
                r == Success(sessions[sessionId].artifacts[artifactId])
    {
      match GetSession(sessionId)
      case Failure(e) => Failure(e)
      case Success(s) =>
        if artifactId in s.artifacts then Success(s.artifacts[artifactId])
        else Failure(KeyError(UnknownArtifactMessage(artifactId)))
    }

    /**
     * `store_file_artifact`: checks the session, then the extension, then the
     * size, and only then writes the bytes into the upload directory `files`
     * (returned as `written`) and files one new artifact.
     */
    method StoreFileArtifact(
      sessionId: string, filename: string, contentType: Option<string>, data: seq<bv8>,
      description: Option<string>, now: nat, files: map<string, seq<bv8>>)
      returns (r: Result<SubmissionArtifact, Error>, written: map<string, seq<bv8>>)
      requires Valid()
      modifies this, SessionFrame(sessionId)
      ensures Valid()
      ensures sessions == old(sessions)
      ensures r.Success? <==> sessionId in sessions && UploadCheck(filename, |data|, maxUploadBytes).Pass?
      ensures sessionId !in sessions ==> r == Failure(KeyError(UnknownSessionMessage(sessionId)))
      ensures sessionId in sessions && UploadCheck(filename, |data|, maxUploadBytes).Fail? ==>
                r == Failure(UploadCheck(filename, |data|, maxUploadBytes).error)
      ensures r.Failure? ==> nextId == old(nextId) && written == files && (sessionId in sessions ==> unchanged(sessions[sessionId]))
      ensures r.Success? ==>
        var s := sessions[sessionId];
        var a := r.value;
        && IsAllowedFile(filename)
        && a == FileArtifactRecord(FreshId(old(nextId)), filename, contentType, |data|, description, now, storageDir, sessionId)
        && a.id !in old(s.artifacts)
        && s.artifacts == old(s.artifacts)[a.id := a]
        && s.artifactOrder == old(s.artifactOrder) + [a.id]
        && s.updatedAt == now
        && s.messages == old(s.messages) && s.transcript == old(s.transcript)
        && s.scoreTotals == old(s.scoreTotals) && s.scoreCounts == old(s.scoreCounts)
        && written == files[a.storagePath.value := data]
        && nextId == old(nextId) + 1
        && GetArtifact(sessionId, a.id) == Success(a)
    {
      written := files;
      var found := GetSession(sessionId);
      if found.Failure? {
        return Failure(found.error), written;
      }
      var check := UploadCheck(filename, |data|, maxUploadBytes);
      if check.Fail? {
        return Failure(check.error), written;
      }
      var id := DrawId();
      var artifact := FileArtifactRecord(id, filename, contentType, |data|, description, now, storageDir, sessionId);
      written := written[artifact.storagePath.value := data];
      FileArtifact(sessionId, artifact, now);
      r := Success(artifact);
    }

    /**
     * `store_link_artifact`: checks the session, then that the trimmed URL is a
     * web link, and files one new link artifact holding the trimmed URL.
     */
    method StoreLinkArtifact(sessionId: string, url: string, description: Option<string>, now: nat)
      returns (r: Result<SubmissionArtifact, Error>)
      requires Valid()
      modifies this, SessionFrame(sessionId)
      ensures Valid()
      ensures sessions == old(sessions)
      ensures r.Success? <==> sessionId in sessions && IsValidLink(Strip(url))
      ensures sessionId !in sessions ==> r == Failure(KeyError(UnknownSessionMessage(sessionId)))
      ensures sessionId in sessions && !IsValidLink(Strip(url)) ==> r == Failure(ValueError(InvalidLinkMessage))
      ensures r.Failure? ==> nextId == old(nextId) && (sessionId in sessions ==> unchanged(sessions[sessionId]))
      ensures r.Success? ==>
        var s := sessions[sessionId];
        var a := r.value;
        && IsValidLink(Strip(url))
        && a == LinkArtifactRecord(FreshId(old(nextId)), url, description, now)
        && a.id !in old(s.artifacts)
        && s.artifacts == old(s.artifacts)[a.id := a]
        && s.artifactOrder == old(s.artifactOrder) + [a.id]
        && s.updatedAt == now
        && s.messages == old(s.messages) && s.transcript == old(s.transcript)
        && s.scoreTotals == old(s.scoreTotals) && s.scoreCounts == old(s.scoreCounts)
        && nextId == old(nextId) + 1
        && GetArtifact(sessionId, a.id) == Success(a)
    {
      var found := GetSession(sessionId);
      if found.Failure? {
        return Failure(found.error);
      }
      var cleaned := Strip(url);
      if !IsValidLink(cleaned) {
        return Failure(ValueError(InvalidLinkMessage));
      }
      var id := DrawId();
      var artifact := LinkArtifactRecord(id, url, description, now);
      FileArtifact(sessionId, artifact, now);
      r := Success(artifact);
    }
  }

  /** A sorted listing of the artifacts in insertion order holds each stored artifact, and only those. */
  lemma ListingCoversArtifacts(
    artifacts: map<string, SubmissionArtifact>, order: seq<string>,
    inOrder: seq<SubmissionArtifact>, listed: seq<SubmissionArtifact>)
    requires forall k :: k in artifacts <==> k in order
    requires |inOrder| == |order| == |artifacts|
    requires forall i :: 0 <= i < |inOrder| ==> inOrder[i] == artifacts[order[i]]
    requires multiset(listed) == multiset(inOrder)
    ensures |listed| == |artifacts|
    ensures forall a :: a in listed <==> a in artifacts.Values
  {
    assert |listed| == |multiset(listed)| == |multiset(inOrder)| == |inOrder|;
    forall a ensures a in listed <==> a in artifacts.Values {
      assert a in listed <==> a in multiset(inOrder);
      if a in inOrder {
        var i :| 0 <= i < |inOrder| && inOrder[i] == a;
        assert order[i] in artifacts;
      }
      if a in artifacts.Values {
        var k :| k in artifacts && artifacts[k] == a;
        var i :| 0 <= i < |order| && order[i] == k;
        assert inOrder[i] == a;
      }
    }
  }

  /** The values a map holds at the given keys, in key order. */
  function ValuesAt(m: map<string, SubmissionArtifact>, keys: seq<string>): (r: seq<SubmissionArtifact>)
    requires forall k :: k in keys ==> k in m
    ensures |r| == |keys|
    ensures forall i :: 0 <= i < |keys| ==> r[i] == m[keys[i]]
  {
    if keys == [] then [] else [m[keys[0]]] + ValuesAt(m, keys[1..])
  }

  /** Every value stored under a listed key appears in the listing. */
  lemma ValuesAtCovers(m: map<string, SubmissionArtifact>, keys: seq<string>)
    requires forall k :: k in keys <==> k in m
    ensures forall k :: k in m ==> m[k] in ValuesAt(m, keys)
  {
    forall k | k in m ensures m[k] in ValuesAt(m, keys) {
      var i :| 0 <= i < |keys| && keys[i] == k;
      assert ValuesAt(m, keys)[i] == m[k];
    }
  }

  /** A duplicate-free sequence listing exactly the elements of a set has the set's size. */
  lemma {:induction false} DistinctCard(xs: seq<string>, s: set<string>)
    requires forall i, j :: 0 <= i < j < |xs| ==> xs[i] != xs[j]
    requires forall x :: x in s <==> x in xs
    ensures |xs| == |s|
    decreases |xs|
  {
    if xs != [] {
      var last := xs[|xs| - 1];
      var init := xs[..|xs| - 1];
      forall x ensures x in s - {last} <==> x in init {
        if x in init {
          var k :| 0 <= k < |init| && init[k] == x;
          assert xs[k] == x;
        }
        if x in xs && x != last {
          var k :| 0 <= k < |xs| && xs[k] == x;
          assert k < |xs| - 1;
          assert init[k] == x;
        }
      }
      DistinctCard(init, s - {last});
    }
  }
}
