/**
 * The records exchanged between the interview service and its callers, with
 * their defaults and field constraints. Timestamps are clock readings (`nat`),
 * Python floats are `real`.
 */
module Schemas {
  import opened Wrappers

  /** Supported interview focus areas. */
  datatype FocusArea = Formulas | DataAnalysis | Automation | Dashboards | DataModeling {

    /** The enum member's string value. */
    function Value(): string {
      match this
      case Formulas => "advanced_formulas"
      case DataAnalysis => "data_analysis"
      case Automation => "automation"
      case Dashboards => "dashboards"
      case DataModeling => "data_modeling"
    }
  }

  /** Every focus area, in declaration order. */
  const AllFocusAreas: seq<FocusArea> := [Formulas, DataAnalysis, Automation, Dashboards, DataModeling]

  /** `FocusArea(value)`: the member with that value, or a validation failure. */
  function ParseFocusArea(value: string): (r: Option<FocusArea>)
    ensures r.Some? ==> r.value.Value() == value
    ensures r.None? ==> forall f: FocusArea :: f.Value() != value
  {
    if value == "advanced_formulas" then Some(Formulas)
    else if value == "data_analysis" then Some(DataAnalysis)
    else if value == "automation" then Some(Automation)
    else if value == "dashboards" then Some(Dashboards)
    else if value == "data_modeling" then Some(DataModeling)
    else None
  }

  /** The enum has exactly five members, each with its own value. */
  lemma FocusAreaEnumeration()
    ensures |AllFocusAreas| == 5
    ensures forall f: FocusArea :: f in AllFocusAreas
    ensures forall i, j :: 0 <= i < j < |AllFocusAreas| ==> AllFocusAreas[i].Value() != AllFocusAreas[j].Value()
  {
    forall f: FocusArea ensures f in AllFocusAreas {
      match f
      case Formulas => assert AllFocusAreas[0] == f;
      case DataAnalysis => assert AllFocusAreas[1] == f;
      case Automation => assert AllFocusAreas[2] == f;
      case Dashboards => assert AllFocusAreas[3] == f;
      case DataModeling => assert AllFocusAreas[4] == f;
    }
  }

  /** Parsing a member's value gives that member back. */
  lemma FocusAreaRoundTrip(f: FocusArea)
    ensures ParseFocusArea(f.Value()) == Some(f)
  {
  }

  /** Supported spreadsheet environments. */
  datatype WorkbookPlatform = MicrosoftExcel | GoogleSheets {

    /** The enum member's string value. */
    function Value(): string {
      match this
      case MicrosoftExcel => "microsoft_excel"
      case GoogleSheets => "google_sheets"
    }
  }

  /** Every platform, in declaration order. */
  const AllWorkbookPlatforms: seq<WorkbookPlatform> := [MicrosoftExcel, GoogleSheets]

  /** `WorkbookPlatform(value)`. */
  function ParseWorkbookPlatform(value: string): (r: Option<WorkbookPlatform>)
    ensures r.Some? ==> r.value.Value() == value
    ensures r.None? ==> forall p: WorkbookPlatform :: p.Value() != value
  {
    if value == "microsoft_excel" then Some(MicrosoftExcel)
    else if value == "google_sheets" then Some(GoogleSheets)
    else None
  }

  /** The enum has exactly two members, each with its own value. */
  lemma WorkbookPlatformEnumeration()
    ensures |AllWorkbookPlatforms| == 2
    ensures forall p: WorkbookPlatform :: p in AllWorkbookPlatforms
    ensures AllWorkbookPlatforms[0].Value() != AllWorkbookPlatforms[1].Value()
    ensures forall p: WorkbookPlatform :: ParseWorkbookPlatform(p.Value()) == Some(p)
  {
    forall p: WorkbookPlatform ensures p in AllWorkbookPlatforms {
      match p
      case MicrosoftExcel => assert AllWorkbookPlatforms[0] == p;
      case GoogleSheets => assert AllWorkbookPlatforms[1] == p;
    }
  }

  /** The candidate starting an interview. */
  datatype CandidateProfile = CandidateProfile(
    name: string,
    currentRole: string,
    yearsExperience: real,
    targetRole: string,
    focusAreas: seq<FocusArea>)
  {
    /** The field constraint `years_experience >= 0`. */
    predicate Valid() {
      yearsExperience >= 0.0
    }
  }

  /**
   * `CandidateProfile(...)`: validates `years_experience >= 0` and defaults
   * `focus_areas` to the empty list when it is not supplied.
   */
  function NewCandidateProfile(
    name: string, currentRole: string, yearsExperience: real, targetRole: string,
    focusAreas: Option<seq<FocusArea>>): (r: Option<CandidateProfile>)
    ensures r.Some? <==> yearsExperience >= 0.0
    ensures r.Some? ==> r.value.Valid()
    ensures r.Some? ==> (r.value.name == name && r.value.currentRole == currentRole &&
                         r.value.yearsExperience == yearsExperience && r.value.targetRole == targetRole)
    ensures r.Some? ==> r.value.focusAreas == (if focusAreas.Some? then focusAreas.value else [])
  {
    if yearsExperience < 0.0 then None
    else Some(CandidateProfile(name, currentRole, yearsExperience, targetRole, focusAreas.GetOr([])))
  }

  /** Request body for creating a session. */
  datatype SessionCreateRequest = SessionCreateRequest(
    candidate: CandidateProfile,
    scenario: string,
    workbookPlatform: WorkbookPlatform)

  /** The scenario used when the request names none. */
  const DefaultScenario: string := "finance_analyst"

  /** The platform used when the request names none. */
  const DefaultWorkbookPlatform: WorkbookPlatform := MicrosoftExcel

  /** `SessionCreateRequest(...)` with the field defaults applied. */
  function NewSessionCreateRequest(
    candidate: CandidateProfile, scenario: Option<string>, workbookPlatform: Option<WorkbookPlatform>)
    : (r: SessionCreateRequest)
    ensures r.candidate == candidate
    ensures r.scenario == (if scenario.Some? then scenario.value else "finance_analyst")
    ensures r.workbookPlatform == (if workbookPlatform.Some? then workbookPlatform.value else MicrosoftExcel)
  {
    SessionCreateRequest(candidate, scenario.GetOr(DefaultScenario), workbookPlatform.GetOr(DefaultWorkbookPlatform))
  }

  /** The evaluator's assessment at one turn; rubric scores map skill names to numbers. */
  datatype EvaluationSnapshot = EvaluationSnapshot(
    summary: string,
    strengths: seq<string>,
    gaps: seq<string>,
    rubricScores: map<string, real>,
    recommendation: string)

  /** One message of the transcript. */
  datatype ChatMessage = ChatMessage(role: string, content: string, createdAt: nat)

  /** One exchange: optional candidate message, interviewer reply, optional evaluation and hint. */
  datatype ChatTurn = ChatTurn(
    candidateMessage: Option<ChatMessage>,
    interviewerMessage: ChatMessage,
    evaluation: Option<EvaluationSnapshot>,
    nextBestAction: Option<string>)

  /** `ChatTurn(...)` with `next_best_action` defaulting to None. */
  function NewChatTurn(
    candidateMessage: Option<ChatMessage>, interviewerMessage: ChatMessage,
    evaluation: Option<EvaluationSnapshot>, nextBestAction: Option<Option<string>>): (r: ChatTurn)
    ensures nextBestAction.None? ==> r.nextBestAction.None?
    ensures nextBestAction.Some? ==> r.nextBestAction == nextBestAction.value
    ensures r.candidateMessage == candidateMessage && r.interviewerMessage == interviewerMessage
    ensures r.evaluation == evaluation
  {
    ChatTurn(candidateMessage, interviewerMessage, evaluation, nextBestAction.GetOr(None))
  }

  /** The `Literal["file", "link"]` kind of an artifact. */
  datatype ArtifactSource = File | Link {

    /** The literal's string. */
    function Value(): string {
      match this
      case File => "file"
      case Link => "link"
    }
  }

  /** Validation of the `source` literal: only "file" and "link" are accepted. */
  function ParseArtifactSource(value: string): (r: Option<ArtifactSource>)
    ensures r.Some? <==> value == "file" || value == "link"
    ensures r.Some? ==> r.value.Value() == value
  {
    if value == "file" then Some(File) else if value == "link" then Some(Link) else None
  }

  /** A candidate's workbook submission: an uploaded file or an external link. */
  datatype SubmissionArtifact = SubmissionArtifact(
    id: string,
    source: ArtifactSource,
    filename: Option<string>,
    contentType: Option<string>,
    sizeBytes: Option<nat>,
    uploadedAt: nat,
    description: string,
    url: Option<string>,
    storagePath: Option<string>)

  /** `SubmissionArtifact(id=..., source=..., uploaded_at=...)` with every other field at its default. */
  function NewSubmissionArtifact(id: string, source: ArtifactSource, uploadedAt: nat): (r: SubmissionArtifact)
    ensures r.id == id && r.source == source && r.uploadedAt == uploadedAt
    ensures r.description == ""
    ensures r.filename.None? && r.contentType.None? && r.sizeBytes.None?
    ensures r.url.None? && r.storagePath.None?
  {
    SubmissionArtifact(id, source, None, None, None, uploadedAt, "", None, None)
  }

  /** Response returned after session creation. */
  datatype SessionCreateResponse = SessionCreateResponse(sessionId: string, firstTurn: ChatTurn)

  /** Response to a candidate message. */
  datatype ChatResponse = ChatResponse(turn: ChatTurn, runningScores: map<string, real>, totalTurns: nat)

  /** Session wrap-up payload. */
  datatype SummaryResponse = SummaryResponse(
    sessionId: string,
    transcript: seq<ChatTurn>,
    finalSummary: string,
    recommendedNextSteps: seq<string>,
    overallScores: map<string, real>)

  /** Payload for recording a spreadsheet link. */
  datatype ArtifactLinkRequest = ArtifactLinkRequest(url: string, description: string)

  /** `ArtifactLinkRequest(url=...)` with the description defaulting to "". */
  function NewArtifactLinkRequest(url: string, description: Option<string>): (r: ArtifactLinkRequest)
    ensures r.url == url
    ensures r.description == (if description.Some? then description.value else "")
  {
    ArtifactLinkRequest(url, description.GetOr(""))
  }
}
