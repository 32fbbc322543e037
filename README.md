# Mock-interview service: a Dafny model

This project models the core of a mock-interview backend for spreadsheet-skills
interviews. A language model plays the interviewer. The service keeps interview
sessions in memory and records each exchange as a turn of the transcript. From
the evaluations in the model's replies it keeps running per-skill score
averages. It also accepts candidate submissions: workbook uploads, checked by
extension and size, and shareable links, checked by their scheme.

The model is split into these modules:

- `Wrappers` (wrappers.dfy): `Option`, `Result` and `Outcome`.
- `Text` (text.dfy): the Python string operations the service relies on
  (`strip`, `lower`, `split`, `join`, `startswith`, `in`, `str(n)`), written
  out on `seq<char>` with their laws.
- `Schemas` (schemas.dfy): the record and enum types, their defaults and
  their field constraints.
- `Config` (config.dfy): the comma-separated list parser and the check that
  the Azure OpenAI settings are present.
- `Prompts` (prompts.dfy): the skill rubric and the three prompt builders. The
  fixed instruction prose is abbreviated. What is modelled is which values
  are substituted where, and the focus-area, notes, rubric-line and
  platform-checklist formatting.
- `Interview` (interview.dfy): the session and the service.
  - `InterviewSession` is a class whose message history, transcript, score
    totals and counts, and artifacts are updated in place.
  - `InterviewService` is a class holding the session map and an identifier
    counter.
  - The language model is a parameter `llm: seq<Message> -> Option<Content>`
    of every operation that calls it. `None` stands for a failed call or an
    unparsable reply.
  - Clock readings are a `now: nat` parameter.

The running averages carry a ghost record, `seen`, of the scores received per
skill. `InterviewSession.Valid()` ties each total and count to the sum and the
number of those scores. Every operation that records a turn keeps that
invariant. So each running average is the mean of the scores received
(`RunningScores`), and by `MeanPermutation` that mean does not depend on
their order.

## Model

| member | source | states |
|---|---|---|
| Schemas.ParseFocusArea | backend/app/schemas.py:11-18 | a value parses to the focus area with exactly that value; a value no area has is refused |
| Schemas.FocusAreaEnumeration | backend/app/schemas.py:11-18 | there are exactly five focus areas, all with distinct values |
| Schemas.FocusAreaRoundTrip | backend/app/schemas.py:11-18 | parsing an area's value gives the area back |
| Schemas.ParseWorkbookPlatform | backend/app/schemas.py:21-25 | a value parses to the platform with exactly that value; any other value is refused |
| Schemas.WorkbookPlatformEnumeration | backend/app/schemas.py:21-25 | there are exactly two platforms with distinct values, and each parses back from its value |
| Schemas.NewCandidateProfile | backend/app/schemas.py:28-38 | a profile is accepted exactly when years of experience is at least 0, keeps the given fields, and has no focus areas when none are given |
| Schemas.NewSessionCreateRequest | backend/app/schemas.py:41-52 | the scenario defaults to "finance_analyst" and the platform to Microsoft Excel |
| Schemas.NewChatTurn | backend/app/schemas.py:73-82 | the next best action is None unless given; the other fields are kept |
| Schemas.ParseArtifactSource | backend/app/schemas.py:89 | a source is accepted exactly when it is "file" or "link" |
| Schemas.NewSubmissionArtifact | backend/app/schemas.py:85-99 | the description defaults to "" and filename, content type, size, URL and storage path default to None |
| Schemas.NewArtifactLinkRequest | backend/app/schemas.py:145-152 | the description defaults to "" |
| Config.ParseList | backend/app/config.py:23-27 | an unset or empty value gives ["*"]; otherwise every element is trimmed, non-empty and free of commas |
| Config.KeepStrippedPart | backend/app/config.py:27 | a single part is kept as its stripped text, or dropped when that is blank |
| Config.KeepStrippedPartsAppend | backend/app/config.py:27 | the parts kept from two runs of parts are those kept from the first followed by those kept from the second, so parts are kept in order |
| Config.ParseListStripsParts | backend/app/config.py:25-27 | a non-empty value of comma-free parts parses to the parts kept by stripping, in order, whether or not they were trimmed |
| Config.ParseListTrimsItems | backend/app/config.py:27 | items padded with whitespace and joined by "," parse to the bare items in order (" a , b " gives ["a", "b"]) |
| Config.KeepNonBlankParts | backend/app/config.py:27 | parts that each strip to a non-blank item are kept as exactly those items |
| Config.KeepStrippedParts | backend/app/config.py:27 | the kept parts are trimmed and non-empty, and there are no more of them than parts |
| Config.ParseListJoin | backend/app/config.py:27 | parsing trimmed non-empty items joined by "," gives the same items in the same order |
| Config.OnlySeparatorsGiveEmptyList | backend/app/config.py:25-27 | a non-empty value made only of commas and whitespace gives [], not ["*"] |
| Config.MissingAzureNames | backend/app/config.py:30-38 | a required name is listed exactly when its setting is unset or empty, and the names keep the order endpoint, key, deployment |
| Config.RequireAzureConfig | backend/app/config.py:29-44 | the check fails exactly when the endpoint, key or deployment is unset or empty, and the message lists the missing names joined by ", " |
| Config.ApiVersionNotChecked | backend/app/config.py:29-44 | the API version has no effect on the check |
| Prompts.SkillNames | backend/app/utils/prompt_templates.py:10-16 | the skill names are the rubric's keys, in order |
| Prompts.SkillRubricKeys | backend/app/utils/prompt_templates.py:10-16 | the rubric has exactly the five keys excel_functions, data_analysis, automation, business_acumen and storytelling, all distinct |
| Prompts.RubricLinesName | backend/app/utils/prompt_templates.py:22 | the rubric lines contain every entry's skill name |
| Prompts.SystemPromptMentionsRubric | backend/app/utils/prompt_templates.py:19-64 | the system prompt contains every rubric skill name and "valid JSON" |
| Prompts.SystemPromptAsksForJson | backend/app/utils/prompt_templates.py:48-49 | the system prompt contains "valid JSON" |
| Prompts.ReplaceChar | backend/app/utils/prompt_templates.py:98 | every occurrence of the target character is replaced, and every other character kept in place |
| Prompts.FocusLabels | backend/app/utils/prompt_templates.py:98 | one label per area, in the areas' order |
| Prompts.FocusText | backend/app/utils/prompt_templates.py:98 | with no focus areas the text is "balanced coverage"; with one area it is that area's label alone |
| Prompts.FocusTextMentionsAreas | backend/app/utils/prompt_templates.py:98 | the focus text contains each selected area's label |
| Prompts.FocusTextInOrder | backend/app/utils/prompt_templates.py:98 | splitting the selection at any point splits the text into the two parts' texts joined by ", ", so the labels keep the selection order |
| Prompts.NoteLines | backend/app/utils/prompt_templates.py:99 | each note becomes one line "- " + note, in order |
| Prompts.NotesBlock | backend/app/utils/prompt_templates.py:99 | with no notes, or None, the block is "- None" |
| Prompts.NotesBlockListsNotes | backend/app/utils/prompt_templates.py:99 | with notes, the block is the note lines joined by newlines: it starts with "- " and contains every "- " + note |
| Prompts.BulletLines | backend/app/utils/prompt_templates.py:102 | each checklist bullet becomes one line "- " + bullet, in order |
| Prompts.ChecklistBlockMentions | backend/app/utils/prompt_templates.py:102-137 | the delivery checklist contains every bullet of the platform |
| Prompts.ProfileBlockMentions | backend/app/utils/prompt_templates.py:106-110 | the profile lines contain the candidate's name and target role |
| Prompts.ContextBlockMentions | backend/app/utils/prompt_templates.py:112-116 | the context lines contain the scenario, the focus text, the platform label and the notes block |
| Prompts.BootstrapTextMentions | backend/app/utils/prompt_templates.py:89-139 | the bootstrap prompt contains the name, target role, scenario, focus text, notes block, platform label and every platform bullet |
| Prompts.HeadingStartsWithName | backend/app/utils/prompt_templates.py:67-86 | each platform's label opens with its product name ("Microsoft Excel", "Google Sheets") |
| Prompts.BootstrapTextNamesHeading | backend/app/utils/prompt_templates.py:114 | anything the platform label opens with appears in the bootstrap prompt |
| Prompts.BootstrapPromptNamesPlatform | backend/app/utils/prompt_templates.py:101-114 | the bootstrap prompt names the selected platform and lists each of its bullets |
| Prompts.YearsTextWhole | backend/app/utils/prompt_templates.py:109 | a whole number of years below 10^16 prints as Python prints a whole float, digits then ".0" |
| Prompts.SummaryPromptMentions | backend/app/utils/prompt_templates.py:142-156 | the summary prompt contains "<name> applying for <target role>", the transcript JSON and "Respond using valid JSON" |
| Interview.FreshIdInjective | backend/app/services/interview_service.py:106 | two identifier draws give the same identifier exactly when they are the same draw |
| Interview.AddedTotals | backend/app/services/interview_service.py:55-58 | each numeric score is added to its skill's total (from 0.0 when absent); other skills keep their totals |
| Interview.AddedCounts | backend/app/services/interview_service.py:55-59 | each skill with a numeric score is counted once more (from 0 when absent); other skills keep their counts |
| Interview.RecordingKeepsAgreement | backend/app/services/interview_service.py:51-61 | after recording, each total is still the sum and each count the number of the scores seen |
| Interview.AverageIsMean | backend/app/services/interview_service.py:60-67 | total / count of a skill is the mean of its scores |
| Interview.SumPermutation | backend/app/services/interview_service.py:51-70 | the total of a skill's scores does not depend on their order |
| Interview.MeanPermutation | backend/app/services/interview_service.py:51-70 | the running average does not depend on the order in which the scores arrived |
| Interview.RecordOneScore | backend/app/services/interview_service.py:56-60 | one loop step skips a non-number, or adds the number to its skill and records the skill's new average |
| Interview.AccumulateScores | backend/app/services/interview_service.py:54-61 | the loop adds every numeric score to its total and count, and returns for exactly the numeric skills their new total / count |
| Interview.InterviewSession.RecordScores | backend/app/services/interview_service.py:51-61 | totals and counts grow by the numeric scores only; the result maps exactly the numeric skills to the mean of all their scores so far; nothing else in the session changes |
| Interview.InterviewSession.RunningScores | backend/app/services/interview_service.py:63-70 | exactly the skills with a positive count, each mapped to the mean of the scores seen for it |
| Interview.SeedDefaults | backend/app/services/interview_service.py:329-331 | every key ends up present; existing values are never overwritten; new keys get the default |
| Interview.SeedDefaultsIdempotent | backend/app/services/interview_service.py:329-331 | seeding twice is seeding once |
| Interview.SeedScoreMaps | backend/app/services/interview_service.py:329-331 | the setdefault loop gives the seeded totals and counts |
| Interview.SeedingKeepsAgreement | backend/app/services/interview_service.py:329-331 | seeding with 0.0, 0 and no scores keeps totals and counts in agreement with the scores seen |
| Interview.InterviewSession.SeedSkills | backend/app/services/interview_service.py:329-331 | totals and counts are seeded with 0.0 and 0 for every skill, existing entries kept; nothing else changes |
| Interview.SnapshotFrom | backend/app/services/interview_service.py:296-313 | no snapshot exactly when the evaluation object is missing, null or empty; otherwise its fields, each defaulting to "", [] or {} |
| Interview.TurnFrom | backend/app/services/interview_service.py:295-323 | the turn carries the candidate message, the interviewer text (default ""), and the next best action; its evaluation is None exactly when the payload's evaluation is missing or empty |
| Interview.SnapshotScores | backend/app/services/interview_service.py:311-314 | the scores passed to record_scores are the snapshot's rubric scores, all numeric |
| Interview.TurnScores | backend/app/services/interview_service.py:305-316 | a turn without an evaluation records no scores; otherwise its rubric scores |
| Interview.TotalsAfterTurn | backend/app/services/interview_service.py:305-331 | the turn's numeric scores are added, other totals kept, and every rubric skill present (0.0 only when it was absent) |
| Interview.CountsAfterTurn | backend/app/services/interview_service.py:305-331 | each scored skill counted once more, other counts kept, and every rubric skill present (0 only when it was absent) |
| Interview.TurnKeepsAgreement | backend/app/services/interview_service.py:288-335 | recording a turn keeps totals and counts equal to the sums and sizes of the scores seen |
| Interview.NoEvaluationOnlySeeds | backend/app/services/interview_service.py:315-331 | a turn without an evaluation only seeds the rubric skills |
| Interview.InterviewService.RecordAiTurn | backend/app/services/interview_service.py:288-335 | appends exactly one turn and one assistant message, updates totals and counts by the turn's scores then seeds every rubric skill, stamps the session, and leaves the artifacts alone |
| Interview.NamedParts | backend/app/services/interview_service.py:216 | the kept path components are non-empty and not "." |
| Interview.Basename | backend/app/services/interview_service.py:216 | the recorded file name contains no "/" |
| Interview.PlainBasename | backend/app/services/interview_service.py:216 | a name without "/" (and not "" or ".") is its own base name |
| Interview.NamedPartsAppend | backend/app/services/interview_service.py:216 | a named component at the end of a path stays the last named component |
| Interview.BasenameOfPath | backend/app/services/interview_service.py:216 | for a path with directories, dir + "/" + name has that name as its base name, when the name has no "/" and is neither "" nor "." |
| Interview.LastIndexOf | backend/app/services/interview_service.py:207 | the position of the last occurrence of the character, or -1 when there is none |
| Interview.Suffix | backend/app/services/interview_service.py:207 | the suffix is "" or a proper ending of the name that starts with its only "." |
| Interview.ExtensionDotIsLast | backend/app/services/interview_service.py:207 | the dot that opens a one-dot extension is the last dot of the name |
| Interview.PlainFileExtension | backend/app/services/interview_service.py:207 | a plain name stem + extension has that extension, lowercased |
| Interview.AllowedExtensionsAccepted | backend/app/services/interview_service.py:76-84 | a plain file name is accepted exactly when its lowercased extension is one of .xlsx, .xlsm, .xlsb, .xls, .csv, .tsv, .ods |
| Interview.TextFileRejected | backend/app/services/interview_service.py:207-211 | a ".txt" upload is refused |
| Interview.UpperCaseWorkbookAccepted | backend/app/services/interview_service.py:207-211 | an upper-case ".XLSX" upload is accepted |
| Interview.UploadCheck | backend/app/services/interview_service.py:207-213 | the upload passes exactly when the extension is allowed and the size is at most the limit; the extension is checked first, each failure with its message |
| Interview.UploadLimitInclusive | backend/app/services/interview_service.py:212-213 | a file exactly at the limit passes; one byte more is refused as too large |
| Interview.ValidLinkPrefix | backend/app/services/interview_service.py:251-253 | a link is accepted exactly when its first 7 or 8 characters are "http://" or "https://" in any letter case |
| Interview.HttpsLinkAccepted | backend/app/services/interview_service.py:251-253 | any https:// link is accepted after trimming |
| Interview.FtpLinkRejected | backend/app/services/interview_service.py:251-253 | an ftp:// link is refused |
| Interview.BlankLinkRejected | backend/app/services/interview_service.py:251-253 | a blank link is refused |
| Interview.StoragePath | backend/app/services/interview_service.py:217-219 | the storage path lies in the session's directory and ends with id + extension |
| Interview.FileArtifactRecord | backend/app/services/interview_service.py:215-231 | the file artifact: source "file", the base name, the size of the data, the trimmed description ("" when None), no URL, and a storage path under the session ending in id + extension |
| Interview.PlainNameAllowed | backend/app/services/interview_service.py:207-216 | the recorded base name of an accepted upload has the same allowed extension |
| Interview.LinkArtifactRecord | backend/app/services/interview_service.py:254-264 | the link artifact: source "link", the trimmed URL, no file name, content type, size or storage path, and the trimmed description |
| Interview.InsertNewestFirst | backend/app/services/interview_service.py:195 | inserting into a newest-first list keeps it newest first and adds exactly that artifact |
| Interview.SortNewestFirst | backend/app/services/interview_service.py:195 | the sorted list is newest first and a permutation of the input |
| Interview.ListingCoversArtifacts | backend/app/services/interview_service.py:195 | the sorted listing has one entry per stored artifact and holds exactly the stored artifacts |
| Interview.InterviewSession.ArtifactsInOrder | backend/app/services/interview_service.py:47 | the artifacts in insertion order, one per key |
| Interview.InterviewSession.constructor | backend/app/services/interview_service.py:34-49 | a new session has the given setup and an empty history, transcript, score maps and artifacts |
| Interview.InterviewSession.AddArtifact | backend/app/services/interview_service.py:232-233 | the artifact is added under its id and the session stamped; history, transcript and scores are unchanged |
| Interview.InterviewService.constructor | backend/app/services/interview_service.py:86-98 | no sessions; the upload directory and limit default to backend/uploads and 10 * 1024 * 1024 bytes |
| Interview.InterviewService.DrawId | backend/app/services/interview_service.py:106 | the drawn identifier has never been drawn before |
| Interview.InterviewService.Register | backend/app/services/interview_service.py:128 | the new session is filed under its id; no other entry changes |
| Interview.InterviewService.FileArtifact | backend/app/services/interview_service.py:232-233 | the artifact is filed in the session and can be fetched back by its id; nothing else in the session changes except the update stamp |
| Interview.InterviewService.GetSession | backend/app/services/interview_service.py:282-286 | the session filed under the id, or a KeyError "Unknown session id <id>" exactly when there is none |
| Interview.InterviewService.CreateSession | backend/app/services/interview_service.py:100-131 | succeeds exactly when the model answers the system and user messages; the new session is filed only then, under a never-used id, holding those two messages plus the reply and one turn without a candidate message; on failure no session is filed |
| Interview.InterviewService.StartSession | backend/app/services/interview_service.py:106-131 | the same as CreateSession for given opening messages |
| Interview.InterviewService.OpenSession | backend/app/services/interview_service.py:107-127 | a fresh valid session is opened with the opening messages and the first turn, or none when the model fails |
| Interview.InterviewService.Chat | backend/app/services/interview_service.py:133-153 | unknown session: KeyError. Model failure: the user message stays in the history and nothing else changes. Otherwise exactly a user and an assistant message are appended, the transcript grows by one turn, and the response carries the turn count and the running averages |
| Interview.InterviewService.Reply | backend/app/services/interview_service.py:140-145 | the user message is appended before the model is called, then the reply is recorded as one turn when there is one |
| Interview.InterviewService.Summarize | backend/app/services/interview_service.py:155-191 | unknown session: KeyError. Otherwise the model sees the history plus one summary request, nothing is recorded, and missing reply fields default to "", {} and [] |
| Interview.InterviewService.ListArtifacts | backend/app/services/interview_service.py:193-195 | unknown session: KeyError. Otherwise exactly the session's artifacts, one entry each, newest first |
| Interview.InterviewService.GetArtifact | backend/app/services/interview_service.py:270-286 | the stored artifact, or a KeyError for an unknown session or an unknown artifact id |
| Interview.InterviewService.StoreFileArtifact | backend/app/services/interview_service.py:197-241 | checks session, then extension, then size; on refusal nothing changes; on success exactly one new artifact is filed under a fresh id, the bytes are written at its storage path, and no other entry changes |
| Interview.InterviewService.StoreLinkArtifact | backend/app/services/interview_service.py:243-268 | checks session, then the trimmed URL's scheme; on refusal nothing changes; on success exactly one new link artifact is filed under a fresh id holding the trimmed URL |

## Left out

- Filesystem: the upload directory is the `files` map that `StoreFileArtifact` takes and returns, so the model does not capture writing in place, directory creation (`mkdir`), resolving the default directory relative to the package, or the order of the write before the artifact is filed. Paths are joined with "/".
- Identifiers: `uuid4` is a counter whose draws are decimal strings that never repeat; randomness is not modelled.
- Clock: each operation takes one `now` reading, where the code reads the clock separately for each timestamp.
- Floats are reals: IEEE rounding of totals and averages is not modelled. Integer, float and boolean scores are all `Number`.
- Pydantic validation and coercion: records are built directly. The constructor functions in `Schemas` model the defaults and the `years_experience >= 0` constraint. Rubric scores reach `record_scores` as numbers, since the evaluation snapshot types them `dict[str, float]`. A reply whose `next_best_action` is not a string fails `ChatTurn` validation only after `record_scores` has updated the totals and counts, so the program keeps those new totals with no turn, no assistant message and no seeding. The model's typed reply cannot express that partial update.
- The language-model client (backend/app/services/llm_client.py is not part of this model): it is the `llm` parameter, and a transport or parse failure is `None`, reported as `LlmFailure`. A JSON `null` in a reply is treated like a missing key. In the program that holds only for `evaluation` (`or {}`), for `strengths`, `gaps` and `rubric_scores` (`or []`, `or {}`), and for `next_best_action`, which may be None. For `interviewer_message`, `summary` and `recommendation`, and for `overall_summary`, `scorecard` and `next_steps` in `summarize`, `.get(k, default)` returns None for a null, and the non-optional field then fails validation. No turn is recorded then, and in `chat` the user message stays in the history, as on a failed call. The model does not capture that failure: it reads such a null as the default.
- `json.dumps`: `Content.text` stands for the serialised reply, and `Summarize` takes the transcript serialiser `dumps` as a parameter.
- Prompt prose: the fixed instruction text is abbreviated to bracketed stand-ins. The final `.strip()` is left out because every prompt starts and ends with fixed text, so it changes nothing.
- Prompts.YearsTextWhole: stated only below 10^16, because from there on Python prints a float in exponent form ("1e+16").
- Prompts.YearsText: `str(float)` is rendered with at most three fraction digits, not Python's shortest round-trip form.
- Text.Lower: lowercases ASCII letters only. This is exact for the extension and scheme tests, which compare against ASCII text.
- Interview.Basename: POSIX path rules only.
- Interview.InterviewService.ListArtifacts: states newest-first order and that the listing holds exactly the stored artifacts; that equal timestamps keep insertion order (Python's stable sort) is computed but not stated.
- The size-limit message is the fixed "10 MB" text whatever limit is configured, as in the code.
- The discarded `running_scores()` call at the end of `_record_ai_turn` is kept as a call whose result is ignored; it has no effect.
- Logging, FastAPI routing and error-to-status mapping (backend/app/main.py is not part of this model), `Settings.__init__` reading the environment, and `get_settings`.
- The response wrappers `ChatRequest`, `ArtifactUploadResponse` and `ArtifactListResponse` only wrap modelled values.
