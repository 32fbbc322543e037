/**
 * The skill rubric and the prompt builders. The fixed instruction text of the
 * templates is abbreviated to bracketed stand-ins; what is modelled is which
 * values are substituted where, and the small formatting rules for focus
 * areas, calibration notes, rubric lines and platform guidance. Each prompt is
 * the concatenation of its pieces, in template order.
 */
module Prompts {
  import opened Wrappers
  import opened Text
  import opened Schemas

  /** The skill catalogue: skill name and description, in declaration order. */
  const SkillRubric: seq<(string, string)> := [
    ("excel_functions", "Ability to apply advanced formulas (INDEX/MATCH, XLOOKUP, array formulas)."),
    ("data_analysis", "Skill in manipulating, cleaning, and analyzing datasets using tables, pivot tables, and Power Query."),
    ("automation", "Proficiency with macros, VBA, Office Scripts, and process automation within Excel."),
    ("business_acumen", "Ability to translate business problems into analytical Excel solutions and communicate insights."),
    ("storytelling", "Clarity and structure when presenting findings, including dashboards and executive-ready narratives.")
  ]

  /** The rubric's keys, in declaration order. */
  const RubricKeys: seq<string> := ["excel_functions", "data_analysis", "automation", "business_acumen", "storytelling"]

  /** The rubric's keys, in order: the first component of every rubric entry. */
  function SkillNames(): (r: seq<string>)
    ensures |r| == |SkillRubric|
    ensures forall i :: 0 <= i < |r| ==> r[i] == SkillRubric[i].0
  {
    RubricKeys
  }

  /** The rubric has exactly these five distinct keys. */
  lemma SkillRubricKeys()
    ensures SkillNames() == ["excel_functions", "data_analysis", "automation", "business_acumen", "storytelling"]
    ensures forall i, j :: 0 <= i < j < |SkillNames()| ==> SkillNames()[i] != SkillNames()[j]
  {
    var names := SkillNames();
    assert names[0] == "excel_functions" && names[1] == "data_analysis" && names[2] == "automation";
    assert names[3] == "business_acumen" && names[4] == "storytelling";
  }

  /**
   * The template's line break: the f-string's lines keep their eight-space
   * indentation, because `dedent` finds no common margin once a multi-line
   * block starting at column 0 has been substituted.
   */
  const Break: string := "\n        "

  /** The fixed opening and closing text of the system prompt (abbreviated). */
  const SystemPromptIntro: string :=
    "You are \"Apex Excel Interviewer\" [persona and six-step interview playbook]\n" + Break
    + "Scoring rubric (1-5 scale where 1 = novice and 5 = expert):" + Break
  const JsonRule: string := "- Always respond with strictly " + "valid JSON" + "."
  const SystemPromptRules: string := "- [JSON keys contract, no markdown]" + "\n" + Break + "Communication guidelines:" + Break + "- [four guidelines]"

  /** `f"- {name}: {description}"`. */
  function RubricLine(entry: (string, string)): string {
    "- " + entry.0 + ": " + entry.1
  }

  /** One line per entry, joined by newlines. */
  function RubricLinesOf(entries: seq<(string, string)>): string {
    Join("\n", seq(|entries|, i requires 0 <= i < |entries| => RubricLine(entries[i])))
  }

  /** The rubric's lines. */
  function RubricLines(): string {
    RubricLinesOf(SkillRubric)
  }

  /** The pieces of the system prompt, in template order. */
  function SystemPromptPieces(): seq<string> {
    [SystemPromptIntro, RubricLines(), "\n" + Break + "Response formatting rules:" + Break, JsonRule, Break, SystemPromptRules]
  }

  /** `build_interview_system_prompt()`. */
  function SystemPrompt(): string {
    Join("", SystemPromptPieces())
  }

  /** The system prompt names every rubric skill and asks for valid JSON. */
  lemma SystemPromptMentionsRubric()
    ensures forall i :: 0 <= i < |SkillNames()| ==> Contains(SystemPrompt(), SkillNames()[i])
    ensures Contains(SystemPrompt(), "valid JSON")
  {
    var pieces := SystemPromptPieces();
    JoinContains("", pieces, 1);
    forall i | 0 <= i < |SkillNames()| ensures Contains(SystemPrompt(), SkillNames()[i]) {
      RubricLinesName(SkillRubric, i);
      ContainsTransitive(SystemPrompt(), RubricLines(), SkillRubric[i].0);
    }
    SystemPromptAsksForJson();
  }

  /** The formatting rules ask for valid JSON. */
  lemma SystemPromptAsksForJson()
    ensures Contains(SystemPrompt(), "valid JSON")
  {
    ContainsMiddle("- Always respond with strictly ", "valid JSON", ".");
    JoinContains("", SystemPromptPieces(), 3);
    ContainsTransitive(SystemPrompt(), JsonRule, "valid JSON");
  }

  /** The lines name every entry's skill. */
  lemma RubricLinesName(entries: seq<(string, string)>, i: nat)
    requires i < |entries|
    ensures Contains(RubricLinesOf(entries), entries[i].0)
  {
    var lines := seq(|entries|, i requires 0 <= i < |entries| => RubricLine(entries[i]));
    var (name, description) := entries[i];
    ContainsMiddle("- ", name, ": " + description);
    assert "- " + name + (": " + description) == lines[i];
    JoinContains("\n", lines, i);
    ContainsTransitive(RubricLinesOf(entries), lines[i], name);
  }

  /** `s.replace(old, new)` for single characters. */
  function ReplaceChar(s: string, target: char, replacement: char): (r: string)
    ensures |r| == |s|
    ensures forall i :: 0 <= i < |s| ==> r[i] == (if s[i] == target then replacement else s[i])
  {
    if s == [] then [] else [if s[0] == target then replacement else s[0]] + ReplaceChar(s[1..], target, replacement)
  }

  /** A focus area as the prompt shows it: its value with "_" turned into " ". */
  function FocusLabel(area: FocusArea): string {
    ReplaceChar(area.Value(), '_', ' ')
  }

  /** The labels of the given areas, in order. */
  function FocusLabels(areas: seq<FocusArea>): (r: seq<string>)
    ensures |r| == |areas|
    ensures forall i :: 0 <= i < |areas| ==> r[i] == FocusLabel(areas[i])
  {
    if areas == [] then [] else [FocusLabel(areas[0])] + FocusLabels(areas[1..])
  }

  /** The "Priority focus areas" text: "balanced coverage", or the labels joined by ", ". */
  function FocusText(areas: seq<FocusArea>): (r: string)
    ensures areas == [] ==> r == "balanced coverage"
    ensures |areas| == 1 ==> r == FocusLabel(areas[0])
  {
    if areas == [] then "balanced coverage" else Join(", ", FocusLabels(areas))
  }

  /** Every selected area's label appears in the focus text. */
  lemma FocusTextMentionsAreas(areas: seq<FocusArea>)
    ensures forall i :: 0 <= i < |areas| ==> Contains(FocusText(areas), FocusLabel(areas[i]))
  {
    forall i | 0 <= i < |areas| ensures Contains(FocusText(areas), FocusLabel(areas[i])) {
      JoinContains(", ", FocusLabels(areas), i);
    }
  }

  /** The labels keep the selection order: the text of a split selection is its parts' texts joined by ", ". */
  lemma FocusTextInOrder(areas: seq<FocusArea>, k: nat)
    requires 0 < k < |areas|
    ensures FocusText(areas) == FocusText(areas[..k]) + ", " + FocusText(areas[k..])
  {
    var all, front, back := FocusLabels(areas), FocusLabels(areas[..k]), FocusLabels(areas[k..]);
    forall i | 0 <= i < |all| ensures all[i] == (front + back)[i] {
      if i < k {
        assert areas[..k][i] == areas[i];
      } else {
        assert areas[k..][i - k] == areas[i];
      }
    }
    assert all == front + back;
    JoinAppend(", ", front, back);
  }

  /** Each note prefixed with "- ". */
  function NoteLines(notes: seq<string>): (r: seq<string>)
    ensures |r| == |notes|
    ensures forall i :: 0 <= i < |notes| ==> r[i] == "- " + notes[i]
  {
    if notes == [] then [] else ["- " + notes[0]] + NoteLines(notes[1..])
  }

  /** Each checklist bullet prefixed with "- ". */
  function BulletLines(bullets: seq<string>): (r: seq<string>)
    ensures |r| == |bullets|
    ensures forall i :: 0 <= i < |bullets| ==> r[i] == "- " + bullets[i]
  {
    seq(|bullets|, i requires 0 <= i < |bullets| => "- " + bullets[i])
  }

  /** The calibration-notes block: the note lines joined by newlines, or "- None" when that is empty. */
  function NotesBlock(notes: Option<seq<string>>): (r: string)
    ensures notes.None? || notes.value == [] ==> r == "- None"
  {
    var joined := Join("\n", NoteLines(notes.GetOr([])));
    if joined == "" then "- None" else joined
  }

  /** With at least one note, the block is the notes, each on a "- " line. */
  lemma NotesBlockListsNotes(notes: seq<string>)
    requires notes != []
    ensures NotesBlock(Some(notes)) == Join("\n", NoteLines(notes))
    ensures StartsWith(NotesBlock(Some(notes)), "- ")
    ensures forall i :: 0 <= i < |notes| ==> Contains(NotesBlock(Some(notes)), "- " + notes[i])
  {
    var lines := NoteLines(notes);
    JoinStartsWith("\n", lines);
    StartsWithPrefix(Join("\n", lines), "- ", notes[0]);
    forall i | 0 <= i < |notes| ensures Contains(NotesBlock(Some(notes)), "- " + notes[i]) {
      JoinContains("\n", lines, i);
    }
  }

  /** A platform's guidance: its heading and its checklist bullets. */
  datatype Guidance = Guidance(heading: string, bullets: seq<string>)

  /** The product name that opens each platform's heading. */
  function PlatformName(platform: WorkbookPlatform): string {
    match platform
    case MicrosoftExcel => "Microsoft Excel"
    case GoogleSheets => "Google Sheets"
  }

  /** Each platform's heading: its product name and where it runs. */
  function PlatformHeading(platform: WorkbookPlatform): string {
    match platform
    case MicrosoftExcel => PlatformName(platform) + " (desktop or web)"
    case GoogleSheets => PlatformName(platform) + " (browser-based)"
  }

  /** The Microsoft Excel checklist bullets. */
  const ExcelBullets: seq<string> := [
      "Provide .xlsx-style directions with sheet names, tables, and pivot layouts.",
      "Encourage Power Query, Power Pivot, VBA, or Office Scripts when automation adds value.",
      "Reference keyboard shortcuts or formula auditing tools where appropriate.",
      "Explain how to package the workbook for upload (clean tabs, highlight assumptions, include notes)."
    ]

  /** The Google Sheets checklist bullets. */
  const SheetsBullets: seq<string> := [
      "Deliver tasks that leverage collaborative features, FILTER/ARRAYFORMULA functions, and connected Sheets data.",
      "Mention how to access Apps Script or Connected Sheets where automation or BigQuery data is useful.",
      "Highlight browser-friendly steps such as sharing the sheet, protecting ranges, or using Explore insights.",
      "Remind the candidate to grant view access and paste the share link via the submission panel when ready."
    ]

  /** Each platform's checklist bullets. */
  function PlatformBullets(platform: WorkbookPlatform): seq<string> {
    match platform
    case MicrosoftExcel => ExcelBullets
    case GoogleSheets => SheetsBullets
  }

  /** The guidance entry of each workbook platform. */
  function PlatformGuidance(platform: WorkbookPlatform): Guidance {
    Guidance(PlatformHeading(platform), PlatformBullets(platform))
  }

  /** `str(x)` for a float: digits, a point, and up to three fraction digits. */
  function YearsText(y: real): string
    decreases if y < 0.0 then 1 else 0
  {
    if y < 0.0 then "-" + YearsText(-y)
    else
      var whole := y.Floor;
      var thousandths := ((y - whole as real) * 1000.0).Floor;
      NatToString(whole) + "." + FractionText(thousandths)
  }

  /**
   * A whole number of years below 10^16 prints as Python prints a whole
   * float: "<digits>.0" (from 10^16 on Python switches to exponent form).
   */
  lemma YearsTextWhole(n: nat)
    requires n < 10000000000000000
    ensures YearsText(n as real) == NatToString(n) + ".0"
  {
    assert (n as real).Floor == n;
    assert FractionText(0) == "0" by {
      assert DropTrailingZeros("0") == "0";
      assert DropTrailingZeros("00") == "0";
      assert DropTrailingZeros("000") == "0";
    }
  }

  /** Three fraction digits without their trailing zeros (but at least one digit). */
  function FractionText(d: int): string
    requires 0 <= d < 1000
  {
    DropTrailingZeros([DigitChar(d / 100), DigitChar(d / 10 % 10), DigitChar(d % 10)])
  }

  /** Drops trailing '0's, keeping the first character. */
  function DropTrailingZeros(s: string): string
    decreases |s|
  {
    if |s| > 1 && s[|s| - 1] == '0' then DropTrailingZeros(s[..|s| - 1]) else s
  }

  /** The fixed instructions and closing bullet of the bootstrap prompt (abbreviated). */
  const BootstrapInstructions: string := "Instructions:" + Break + "[eight numbered interviewing instructions]"
  const ChecklistClosing: string := "- Confirm the candidate knows how to submit their workbook [and the success criteria]"

  /** The candidate-profile lines of the bootstrap prompt. */
  function ProfileBlock(candidate: CandidateProfile): string {
    Join("", [ "Candidate profile:" + Break + "- Name: ", candidate.name,
               Break + "- Current role: ", candidate.currentRole,
               Break + "- Years of experience: ", YearsText(candidate.yearsExperience),
               Break + "- Target role: ", candidate.targetRole ])
  }

  /** The scenario, focus, environment and calibration-notes lines of the bootstrap prompt. */
  function ContextBlock(scenario: string, focusAreas: seq<FocusArea>, heading: string, notes: Option<seq<string>>): string {
    Join("", [ "\n" + Break + "Interview scenario: ", scenario,
               Break + "Priority focus areas: ", FocusText(focusAreas),
               Break + "Workbook environment: ", heading,
               Break + "Internal calibration notes:" + Break, NotesBlock(notes) ])
  }

  /** The instructions and the platform's delivery checklist. */
  function ChecklistBlock(bullets: seq<string>): string {
    Join("", [ "\n" + Break + BootstrapInstructions + "\n" + Break + "Spreadsheet delivery checklist:" + Break,
               Join("\n", BulletLines(bullets)),
               Break + ChecklistClosing ])
  }

  /** The bootstrap prompt for a given platform guidance entry. */
  function BootstrapText(
    candidate: CandidateProfile, scenario: string, focusAreas: seq<FocusArea>,
    guidance: Guidance, notes: Option<seq<string>>): string
  {
    Join("", [ProfileBlock(candidate), ContextBlock(scenario, focusAreas, guidance.heading, notes), ChecklistBlock(guidance.bullets)])
  }

  /** `build_session_bootstrap_prompt(candidate, scenario, focus_areas, workbook_platform, notes)`. */
  function BootstrapPrompt(
    candidate: CandidateProfile, scenario: string, focusAreas: seq<FocusArea>,
    platform: WorkbookPlatform, notes: Option<seq<string>>): string
  {
    BootstrapText(candidate, scenario, focusAreas, PlatformGuidance(platform), notes)
  }

  /** Every item appears in its "- " lines. */
  lemma {:induction false} BulletLinesListItems(items: seq<string>)
    ensures forall j :: 0 <= j < |items| ==> Contains(Join("\n", BulletLines(items)), items[j])
  {
    var lines := BulletLines(items);
    forall j | 0 <= j < |items| ensures Contains(Join("\n", lines), items[j]) {
      JoinContains("\n", lines, j);
      ContainsMiddle("- ", items[j], "");
      assert "- " + items[j] + "" == lines[j];
      ContainsTransitive(Join("\n", lines), lines[j], items[j]);
    }
  }

  /** The profile block names the candidate and the target role. */
  lemma ProfileBlockMentions(candidate: CandidateProfile)
    ensures Contains(ProfileBlock(candidate), candidate.name)
    ensures Contains(ProfileBlock(candidate), candidate.targetRole)
  {
    var pieces := [ "Candidate profile:" + Break + "- Name: ", candidate.name,
                    Break + "- Current role: ", candidate.currentRole,
                    Break + "- Years of experience: ", YearsText(candidate.yearsExperience),
                    Break + "- Target role: ", candidate.targetRole ];
    JoinContains("", pieces, 1);
    JoinContains("", pieces, 7);
  }

  /** The context block carries the scenario, the focus text, the platform heading and the notes. */
  lemma ContextBlockMentions(scenario: string, focusAreas: seq<FocusArea>, heading: string, notes: Option<seq<string>>)
    ensures var b := ContextBlock(scenario, focusAreas, heading, notes);
      Contains(b, scenario) && Contains(b, FocusText(focusAreas)) && Contains(b, heading) && Contains(b, NotesBlock(notes))
  {
    var pieces := [ "\n" + Break + "Interview scenario: ", scenario,
                    Break + "Priority focus areas: ", FocusText(focusAreas),
                    Break + "Workbook environment: ", heading,
                    Break + "Internal calibration notes:" + Break, NotesBlock(notes) ];
    JoinContains("", pieces, 1);
    JoinContains("", pieces, 3);
    JoinContains("", pieces, 5);
    JoinContains("", pieces, 7);
  }

  /** The checklist block lists every bullet. */
  lemma ChecklistBlockMentions(bullets: seq<string>)
    ensures forall j :: 0 <= j < |bullets| ==> Contains(ChecklistBlock(bullets), bullets[j])
  {
    var lines := Join("\n", BulletLines(bullets));
    var pieces := [ "\n" + Break + BootstrapInstructions + "\n" + Break + "Spreadsheet delivery checklist:" + Break,
                    lines,
                    Break + ChecklistClosing ];
    JoinContains("", pieces, 1);
    BulletLinesListItems(bullets);
    forall j | 0 <= j < |bullets| ensures Contains(ChecklistBlock(bullets), bullets[j]) {
      ContainsTransitive(ChecklistBlock(bullets), lines, bullets[j]);
    }
  }

  /**
   * The bootstrap prompt carries the candidate's name and target role, the
   * scenario, the focus text, the notes block, and the guidance's heading and
   * every one of its bullets.
   */
  lemma BootstrapTextMentions(
    candidate: CandidateProfile, scenario: string, focusAreas: seq<FocusArea>,
    guidance: Guidance, notes: Option<seq<string>>)
    ensures Contains(BootstrapText(candidate, scenario, focusAreas, guidance, notes), candidate.name)
    ensures Contains(BootstrapText(candidate, scenario, focusAreas, guidance, notes), candidate.targetRole)
    ensures Contains(BootstrapText(candidate, scenario, focusAreas, guidance, notes), scenario)
    ensures Contains(BootstrapText(candidate, scenario, focusAreas, guidance, notes), FocusText(focusAreas))
    ensures Contains(BootstrapText(candidate, scenario, focusAreas, guidance, notes), NotesBlock(notes))
    ensures Contains(BootstrapText(candidate, scenario, focusAreas, guidance, notes), guidance.heading)
    ensures forall j :: 0 <= j < |guidance.bullets| ==>
              Contains(BootstrapText(candidate, scenario, focusAreas, guidance, notes), guidance.bullets[j])
  {
    var profile := ProfileBlock(candidate);
    var context := ContextBlock(scenario, focusAreas, guidance.heading, notes);
    var checklist := ChecklistBlock(guidance.bullets);
    var p := BootstrapText(candidate, scenario, focusAreas, guidance, notes);
    JoinContains("", [profile, context, checklist], 0);
    JoinContains("", [profile, context, checklist], 1);
    JoinContains("", [profile, context, checklist], 2);
    ProfileBlockMentions(candidate);
    ContainsTransitive(p, profile, candidate.name);
    ContainsTransitive(p, profile, candidate.targetRole);
    ContextBlockMentions(scenario, focusAreas, guidance.heading, notes);
    ContainsTransitive(p, context, scenario);
    ContainsTransitive(p, context, FocusText(focusAreas));
    ContainsTransitive(p, context, NotesBlock(notes));
    ContainsTransitive(p, context, guidance.heading);
    ChecklistBlockMentions(guidance.bullets);
    forall j | 0 <= j < |guidance.bullets| ensures Contains(p, guidance.bullets[j]) {
      ContainsTransitive(p, checklist, guidance.bullets[j]);
    }
  }

  /** Each platform's heading opens with the platform's product name. */
  lemma HeadingStartsWithName(platform: WorkbookPlatform)
    ensures StartsWith(PlatformHeading(platform), PlatformName(platform))
  {
    match platform
    case MicrosoftExcel => StartsWithConcat(PlatformName(platform), " (desktop or web)");
    case GoogleSheets => StartsWithConcat(PlatformName(platform), " (browser-based)");
  }

  /** A prompt whose guidance heading opens with `name` mentions `name`. */
  lemma BootstrapTextNamesHeading(
    candidate: CandidateProfile, scenario: string, focusAreas: seq<FocusArea>,
    guidance: Guidance, notes: Option<seq<string>>, name: string)
    requires StartsWith(guidance.heading, name)
    ensures Contains(BootstrapText(candidate, scenario, focusAreas, guidance, notes), name)
  {
    BootstrapTextMentions(candidate, scenario, focusAreas, guidance, notes);
    StartsWithContains(guidance.heading, name);
    ContainsTransitive(BootstrapText(candidate, scenario, focusAreas, guidance, notes), guidance.heading, name);
  }

  /**
   * The prompt names the selected platform ("Microsoft Excel" or "Google
   * Sheets") and lists its bullets.
   */
  lemma BootstrapPromptNamesPlatform(
    candidate: CandidateProfile, scenario: string, focusAreas: seq<FocusArea>,
    platform: WorkbookPlatform, notes: Option<seq<string>>)
    ensures Contains(BootstrapPrompt(candidate, scenario, focusAreas, platform, notes), PlatformName(platform))
    ensures forall j :: 0 <= j < |PlatformBullets(platform)| ==>
              Contains(BootstrapPrompt(candidate, scenario, focusAreas, platform, notes), PlatformBullets(platform)[j])
  {
    HeadingStartsWithName(platform);
    BootstrapTextNamesHeading(candidate, scenario, focusAreas, PlatformGuidance(platform), notes, PlatformName(platform));
    BootstrapTextMentions(candidate, scenario, focusAreas, PlatformGuidance(platform), notes);
  }

  /** The fixed text of the summary prompt (abbreviated). */
  const SummaryIntro: string := "Provide a final debrief for the Excel mock interview below. [readiness, per-skill proficiency, next steps]"
  const JsonRequest: string := "Respond using valid JSON"
  const SummaryKeys: string := " with keys \"overall_summary\" (string), \"scorecard\" (object of skill -> float), and [\"next_steps\"]"

  /**
   * The pieces of the summary prompt, in template order. Here `dedent` does
   * remove the indentation, since the substituted transcript is one line.
   */
  function SummaryPieces(candidate: CandidateProfile, transcript: string): seq<string> {
    [ SummaryIntro, "\n\nCandidate: ", candidate.name + " applying for " + candidate.targetRole,
      "\nTranscript JSON: ", transcript, "\n\n", JsonRequest, SummaryKeys ]
  }

  /** `build_summary_prompt(candidate, transcript)`. */
  function SummaryPrompt(candidate: CandidateProfile, transcript: string): string {
    Join("", SummaryPieces(candidate, transcript))
  }

  /** The summary prompt names "<name> applying for <target role>", carries the transcript and asks for valid JSON. */
  lemma SummaryPromptMentions(candidate: CandidateProfile, transcript: string)
    ensures Contains(SummaryPrompt(candidate, transcript), candidate.name + " applying for " + candidate.targetRole)
    ensures Contains(SummaryPrompt(candidate, transcript), transcript)
    ensures Contains(SummaryPrompt(candidate, transcript), "Respond using valid JSON")
  {
    var pieces := SummaryPieces(candidate, transcript);
    JoinContains("", pieces, 2);
    JoinContains("", pieces, 4);
    JoinContains("", pieces, 6);
  }
}
