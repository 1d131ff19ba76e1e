/**
 * The entities of the civil-registration timeline: process types, step
 * statuses, the steps of a process, the configuration records and the
 * scenarios that fill a process in static mode.
 */
module Models {
  import opened Wrappers

  /** The three civil-registration acts. */
  datatype ProcessType = Birth | Marriage | Death {
    /** The string value of the enum member, which is also its key in the configuration tables. */
    function Key(): string {
      match this
      case Birth => "BIRTH"
      case Marriage => "MARRIAGE"
      case Death => "DEATH"
    }
  }

  /** The states a step can be in. */
  datatype StepStatus = NotStarted | InProgress | Completed | Cancelled {
    /** The string value of the enum member, which is also its key in the status table. */
    function Key(): string {
      match this
      case NotStarted => "NOT_STARTED"
      case InProgress => "IN_PROGRESS"
      case Completed => "COMPLETED"
      case Cancelled => "CANCELLED"
    }
  }

  /**
   * One step of a process as shown on the timeline. `completionDate` is kept as
   * the text the date was built from; `description` is absent unless its
   * definition has one. The source's `label` is `fullLabel` here and in the
   * configuration records, since `label` is a reserved word in Dafny.
   */
  datatype ProcessStep = ProcessStep(
    id: string,
    stepId: string,
    order: int,
    fullLabel: string,
    shortLabel: string,
    icon: string,
    status: StepStatus,
    completionDate: Option<string>,
    description: Option<string>)

  /** A whole process; `createdAt` and `updatedAt` are milliseconds since the epoch. */
  datatype Process = Process(
    id: string,
    processType: ProcessType,
    declarationNumber: string,
    nina: string,
    steps: seq<ProcessStep>,
    createdAt: nat,
    updatedAt: nat)

  /** How a process type is named and drawn. */
  datatype ProcessTypeConfig = ProcessTypeConfig(
    id: string,
    name: string,
    displayName: string,
    code: string,
    prefix: string,
    icon: string,
    color: string,
    backgroundColor: string,
    borderColor: string)

  /** How a step status is named and drawn; `icon` is null for a status drawn without one. */
  datatype StepStatusConfig = StepStatusConfig(
    id: string,
    code: string,
    fullLabel: string,
    shortLabel: string,
    color: string,
    borderColor: string,
    lineColor: string,
    icon: Option<string>,
    iconColor: string)

  /** The definition of one step of a process type. */
  datatype StepDefinition = StepDefinition(
    id: string,
    code: string,
    order: int,
    fullLabel: string,
    shortLabel: string,
    icon: string,
    description: Option<string>)

  /** The state a scenario gives one step; the date is the text of an ISO date, or null. */
  datatype ScenarioStep = ScenarioStep(stepId: string, status: StepStatus, completionDate: Option<string>)

  /** The data a process of one type is filled with in static mode. */
  datatype TimelineScenario = TimelineScenario(declarationNumber: string, nina: string, steps: seq<ScenarioStep>)
}
