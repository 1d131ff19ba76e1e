/**
 * The static configuration of the timeline service: the process types, the
 * step statuses, the step definitions of each type and the scenario each type
 * is filled with, as string-keyed tables, and the lookups over them.
 */
module ApiConfig {
  import opened Wrappers
  import opened Models

  // ---------------------------------------------------------------------------
  // Metadata
  // ---------------------------------------------------------------------------

  /** The flags of the configuration's metadata block. */
  datatype Metadata = Metadata(version: string, name: string, apiBaseUrl: string, staticMode: bool, interactionsEnabled: bool)

  const ConfigMetadata: Metadata :=
    Metadata("1.0.0", "CRVS Mali Timeline API Service - Static Mode", "https://api.crvs-mali.gov.ml", true, false)

  /** `isStaticMode`: the metadata flag compared with `true`. */
  function IsStaticMode(): (r: bool)
    ensures r
  {
    ConfigMetadata.staticMode == true
  }

  /** `areInteractionsEnabled`: the metadata flag compared with `true`. */
  function AreInteractionsEnabled(): (r: bool)
    ensures !r
  {
    ConfigMetadata.interactionsEnabled == true
  }

  // ---------------------------------------------------------------------------
  // Process types
  // ---------------------------------------------------------------------------

  const BirthConfig: ProcessTypeConfig :=
    ProcessTypeConfig("BIRTH", "Acte de Naissance", "Actes de Naissance", "ACTE_NAISSANCE", "N", "child_care",
      "#2196f3", "linear-gradient(135deg, #e3f2fd, #bbdefb)", "#2196f3")
  const MarriageConfig: ProcessTypeConfig :=
    ProcessTypeConfig("MARRIAGE", "Acte de Mariage", "Actes de Mariage", "ACTE_MARIAGE", "M", "favorite",
      "#e91e63", "linear-gradient(135deg, #f8bbd0, #f48fb1)", "#e91e63")
  const DeathConfig: ProcessTypeConfig :=
    ProcessTypeConfig("DEATH", "Acte de Décès", "Actes de Décès", "ACTE_DECES", "D", "contact_emergency",
      "#757575", "linear-gradient(135deg, #e1e1e1, #bdbdbd)", "#757575")

  /** The `processTypes` table. */
  const ProcessTypes: map<string, ProcessTypeConfig> :=
    map["BIRTH" := BirthConfig, "MARRIAGE" := MarriageConfig, "DEATH" := DeathConfig]

  /** `getProcessTypeConfig`: every type has an entry, and it names the type it is under. */
  function GetProcessTypeConfig(t: ProcessType): (r: ProcessTypeConfig)
    ensures r.id == t.Key()
  {
    ProcessTypes[t.Key()]
  }

  /** `getAllProcessTypes`: the entries of `processTypes` in their insertion order. */
  function GetAllProcessTypes(): (r: seq<ProcessTypeConfig>)
    ensures |r| == 3
    ensures forall t: ProcessType :: GetProcessTypeConfig(t) in r
    ensures forall i, j :: 0 <= i < j < |r| ==> r[i].id != r[j].id
  {
    [BirthConfig, MarriageConfig, DeathConfig]
  }

  // ---------------------------------------------------------------------------
  // Step statuses
  // ---------------------------------------------------------------------------

  const NotStartedConfig: StepStatusConfig :=
    StepStatusConfig("NOT_STARTED", "PAS_COMMENCE", "Pas commencé", "Pas commencé", "#bdbdbd", "#9e9e9e", "#bdbdbd", None, "#ffffff")
  const InProgressConfig: StepStatusConfig :=
    StepStatusConfig("IN_PROGRESS", "EN_COURS", "En cours", "En cours", "#ff9800", "#f57c00", "#ff9800", Some("more_horiz"), "#ffffff")
  const CompletedConfig: StepStatusConfig :=
    StepStatusConfig("COMPLETED", "FAIT", "Fait", "Fait", "#4caf50", "#388e3c", "#4caf50", Some("check"), "#ffffff")
  const CancelledConfig: StepStatusConfig :=
    StepStatusConfig("CANCELLED", "ANNULE", "Annulé", "Annulé", "#f44336", "#d32f2f", "#f44336", Some("close"), "#ffffff")

  /** The `stepStatuses` table. */
  const StepStatuses: map<string, StepStatusConfig> :=
    map["NOT_STARTED" := NotStartedConfig, "IN_PROGRESS" := InProgressConfig,
        "COMPLETED" := CompletedConfig, "CANCELLED" := CancelledConfig]

  /** `getStepStatusConfig`: total over the statuses; only `NOT_STARTED` is drawn without an icon. */
  function GetStepStatusConfig(s: StepStatus): (r: StepStatusConfig)
    ensures r.id == s.Key()
    ensures r.icon.None? <==> s == NotStarted
    ensures r.icon.Some? ==> r.icon.value != ""
  {
    StepStatuses[s.Key()]
  }

  /** `getAllStepStatuses`: the entries of `stepStatuses` in their insertion order. */
  function GetAllStepStatuses(): (r: seq<StepStatusConfig>)
    ensures |r| == 4
    ensures forall s: StepStatus :: GetStepStatusConfig(s) in r
  {
    [NotStartedConfig, InProgressConfig, CompletedConfig, CancelledConfig]
  }

  // ---------------------------------------------------------------------------
  // Step definitions
  // ---------------------------------------------------------------------------

  const BirthSteps: seq<StepDefinition> := [
    StepDefinition("enregistrement", "ENREGISTREMENT_NAISSANCE", 1, "Enregistrement de naissance", "Enregistrement", "app_registration", None),
    StepDefinition("declaration", "DECLARATION_NAISSANCE", 2, "Déclaration de naissance", "Déclaration", "description", None),
    StepDefinition("etablissement", "ETABLISSEMENT_ACTE_NAISSANCE", 3, "Établissement de l'acte", "Établissement", "gavel", None),
    StepDefinition("remise", "REMISE_ACTE_NAISSANCE", 4, "Remise de l'acte", "Remise", "assignment_turned_in", None)
  ]
  const MarriageSteps: seq<StepDefinition> := [
    StepDefinition("declaration", "DECLARATION_MARIAGE", 1, "Déclaration de mariage", "Déclaration", "favorite", None),
    StepDefinition("publication", "PUBLICATION_MARIAGE", 2, "Publication de mariage", "Publication", "campaign", None),
    StepDefinition("enquetes", "ENQUETES_PRENUPTIALES", 3, "Enquêtes prénuptiales", "Enquêtes", "find_in_page", None),
    StepDefinition("celebration_remise", "CELEBRATION_REMISE_ACTE_MARIAGE", 4, "Célébration et Remise de l'acte", "Célébration", "celebration", None)
  ]
  const DeathSteps: seq<StepDefinition> := [
    StepDefinition("certificat", "CERTIFICAT_DECES", 1, "Certificat de décès", "Certificat", "medical_services", None),
    StepDefinition("declaration", "DECLARATION_DECES", 2, "Déclaration de décès", "Déclaration", "description", None),
    StepDefinition("etablissement", "ETABLISSEMENT_ACTE_DECES", 3, "Établissement de l'acte", "Établissement", "gavel", None),
    StepDefinition("remise", "REMISE_ACTE_DECES", 4, "Remise de l'acte", "Remise", "assignment_turned_in", None)
  ]

  /** The `processSteps` table. */
  const ProcessSteps: map<string, seq<StepDefinition>> :=
    map["BIRTH" := BirthSteps, "MARRIAGE" := MarriageSteps, "DEATH" := DeathSteps]

  /** The `|| []` lookup into `processSteps`: the definitions under a key, `[]` for a key with no entry. */
  function StepDefinitionsUnder(key: string): (r: seq<StepDefinition>)
    ensures key !in ProcessSteps ==> r == []
    ensures key in ProcessSteps ==> r == ProcessSteps[key]
  {
    if key in ProcessSteps then ProcessSteps[key] else []
  }

  /** Orders 1, 2, 3, 4 in sequence, and no id used twice. */
  predicate WellOrderedDefinitions(d: seq<StepDefinition>) {
    && |d| == 4
    && (forall i :: 0 <= i < |d| ==> d[i].order == i + 1)
    && (forall i, j :: 0 <= i < j < |d| ==> d[i].id != d[j].id)
  }

  /** `getStepDefinitions`: four definitions per type, ordered 1 to 4, with distinct ids. */
  function GetStepDefinitions(t: ProcessType): (r: seq<StepDefinition>)
    ensures WellOrderedDefinitions(r)
  {
    StepDefinitionsUnder(t.Key())
  }

  // ---------------------------------------------------------------------------
  // Scenarios
  // ---------------------------------------------------------------------------

  const BirthScenario: TimelineScenario := TimelineScenario("N-2025-0001", "123456789012345", [
    ScenarioStep("enregistrement", Completed, Some("2025-04-15T10:30:00Z")),
    ScenarioStep("declaration", Completed, Some("2025-04-18T14:20:00Z")),
    ScenarioStep("etablissement", Cancelled, None),
    ScenarioStep("remise", Completed, None)
  ])
  const MarriageScenario: TimelineScenario := TimelineScenario("M-2025-0001", "987654321098765", [
    ScenarioStep("declaration", Completed, Some("2025-04-10T11:00:00Z")),
    ScenarioStep("publication", Completed, Some("2025-04-17T16:30:00Z")),
    ScenarioStep("enquetes", Cancelled, None),
    ScenarioStep("celebration_remise", Cancelled, None)
  ])
  const DeathScenario: TimelineScenario := TimelineScenario("D-2025-0001", "456789012345678", [
    ScenarioStep("certificat", Completed, Some("2025-04-12T13:45:00Z")),
    ScenarioStep("declaration", Completed, Some("2025-04-14T10:15:00Z")),
    ScenarioStep("etablissement", Completed, Some("2025-04-20T15:00:00Z")),
    ScenarioStep("remise", InProgress, None)
  ])

  /** The `scenarios` table. */
  const Scenarios: map<string, TimelineScenario> :=
    map["BIRTH" := BirthScenario, "MARRIAGE" := MarriageScenario, "DEATH" := DeathScenario]

  /** Some definition has this id. */
  predicate Defines(d: seq<StepDefinition>, stepId: string) {
    exists i :: 0 <= i < |d| && d[i].id == stepId
  }

  /**
   * `getScenario`: every type has one, and its declaration number starts with
   * the type's prefix and a dash; no scenario step is `NOT_STARTED`.
   */
  function GetScenario(t: ProcessType): (r: TimelineScenario)
    ensures |GetProcessTypeConfig(t).prefix + "-"| <= |r.declarationNumber|
    ensures r.declarationNumber[..|GetProcessTypeConfig(t).prefix| + 1] == GetProcessTypeConfig(t).prefix + "-"
    ensures forall k :: 0 <= k < |r.steps| ==> r.steps[k].status != NotStarted
  {
    Scenarios[t.Key()]
  }

  /** Each step of a type's scenario names a definition of that type, and each definition is named by a scenario step. */
  lemma ScenarioMatchesDefinitions(t: ProcessType)
    ensures var d := GetStepDefinitions(t); var r := GetScenario(t);
      |r.steps| == |d| && forall i :: 0 <= i < |d| ==> r.steps[i].stepId == d[i].id
    ensures forall k :: 0 <= k < |GetScenario(t).steps| ==> Defines(GetStepDefinitions(t), GetScenario(t).steps[k].stepId)
  {
    var d := GetStepDefinitions(t);
    var r := GetScenario(t);
    match t
    case Birth =>
      assert d == BirthSteps && r == BirthScenario;
    case Marriage =>
      assert d == MarriageSteps && r == MarriageScenario;
    case Death =>
      assert d == DeathSteps && r == DeathScenario;
  }
}
