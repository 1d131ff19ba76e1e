/**
 * The process service: builds a process of a given type from the type's step
 * definitions and its scenario, keeps the type currently shown and publishes
 * each process it builds.
 */
module ProcessService {
  import opened Wrappers
  import opened JsStrings
  import opened Models
  import opened ApiConfig

  /** `k` is the first scenario step with this id. */
  predicate IsFirstWithId(steps: seq<ScenarioStep>, k: int, stepId: string) {
    && 0 <= k < |steps|
    && steps[k].stepId == stepId
    && forall j :: 0 <= j < k ==> steps[j].stepId != stepId
  }

  /** The index `find` stops at: the first scenario step with this id, or -1. */
  function FindScenarioStep(steps: seq<ScenarioStep>, stepId: string): (k: int)
    ensures k == -1 <==> forall j :: 0 <= j < |steps| ==> steps[j].stepId != stepId
    ensures k != -1 ==> IsFirstWithId(steps, k, stepId)
  {
    if steps == [] then -1
    else if steps[0].stepId == stepId then 0
    else
      var k := FindScenarioStep(steps[1..], stepId);
      if k == -1 then -1 else k + 1
  }

  /** `scenarioStep?.status || NOT_STARTED`: a status is a non-empty string, so it is taken whenever a step was found. */
  function StatusFrom(found: Option<ScenarioStep>): StepStatus {
    if found.Some? then found.value.status else NotStarted
  }

  /** `scenarioStep?.completionDate ? new Date(...) : undefined`: a date only for a found step with a non-empty date. */
  function CompletionDateFrom(found: Option<ScenarioStep>): Option<string> {
    if found.Some? && found.value.completionDate.Some? && found.value.completionDate.value != "" then
      found.value.completionDate
    else
      None
  }

  /** The step built for one definition; `now` stands for `Date.now()`. */
  function BuildStep(definition: StepDefinition, scenario: TimelineScenario, now: nat): ProcessStep {
    var k := FindScenarioStep(scenario.steps, definition.id);
    var found := if k == -1 then None else Some(scenario.steps[k]);
    ProcessStep(
      definition.id + "-" + NatToString(now),
      definition.id,
      definition.order,
      definition.fullLabel,
      definition.shortLabel,
      definition.icon,
      StatusFrom(found),
      CompletionDateFrom(found),
      definition.description)
  }

  /**
   * `buildProcessFromScenario`: one step per definition, in the definitions'
   * order, each taking its status and date from the first scenario step with
   * its id. `now` stands for both `Date.now()` and `new Date()`.
   */
  function BuildProcessFromScenario(t: ProcessType, scenario: TimelineScenario, definitions: seq<StepDefinition>, now: nat): (p: Process)
    ensures p.processType == t
    ensures p.declarationNumber == scenario.declarationNumber && p.nina == scenario.nina
    ensures |p.steps| == |definitions|
    ensures forall i :: 0 <= i < |definitions| ==>
      var s := p.steps[i]; var d := definitions[i];
      s.stepId == d.id && s.order == d.order && s.fullLabel == d.fullLabel
      && s.shortLabel == d.shortLabel && s.icon == d.icon && s.description == d.description
    ensures forall i :: 0 <= i < |definitions| ==>
      (forall j :: 0 <= j < |scenario.steps| ==> scenario.steps[j].stepId != definitions[i].id) ==>
        p.steps[i].status == NotStarted && p.steps[i].completionDate == None
    ensures forall i, k :: 0 <= i < |definitions| && IsFirstWithId(scenario.steps, k, definitions[i].id) ==>
      && p.steps[i].status == scenario.steps[k].status
      && (p.steps[i].completionDate.Some? <==> scenario.steps[k].completionDate.Some? && scenario.steps[k].completionDate.value != "")
      && (p.steps[i].completionDate.Some? ==> p.steps[i].completionDate == scenario.steps[k].completionDate)
    ensures forall i :: 0 <= i < |p.steps| ==> Defines(definitions, p.steps[i].stepId)
  {
    var steps := seq(|definitions|, i requires 0 <= i < |definitions| => BuildStep(definitions[i], scenario, now));
    assert forall i, k :: 0 <= i < |definitions| && IsFirstWithId(scenario.steps, k, definitions[i].id) ==>
      FindScenarioStep(scenario.steps, definitions[i].id) == k;
    Process(ToLower(t.Key()) + "-" + NatToString(now), t, scenario.declarationNumber, scenario.nina, steps, now, now)
  }

  /** Two strings with the same suffix are equal when the whole strings are. */
  lemma SuffixCancels(a: string, b: string, suffix: string)
    requires a + suffix == b + suffix
    ensures a == b
  {
    assert |a| == |b|;
    assert a == (a + suffix)[..|a|];
    assert b == (b + suffix)[..|b|];
  }

  /** A built step's id is its definition's id followed by the dash and the instant. */
  lemma StepIdSuffix(definition: StepDefinition, scenario: TimelineScenario, now: nat)
    ensures BuildStep(definition, scenario, now).id == definition.id + ("-" + NatToString(now))
  {
    assert definition.id + "-" + NatToString(now) == definition.id + ("-" + NatToString(now));
  }

  /** Definitions with distinct ids give steps with distinct ids. */
  lemma BuiltStepIdsDistinct(t: ProcessType, scenario: TimelineScenario, definitions: seq<StepDefinition>, now: nat)
    requires forall i, j :: 0 <= i < j < |definitions| ==> definitions[i].id != definitions[j].id
    ensures var p := BuildProcessFromScenario(t, scenario, definitions, now);
      forall i, j :: 0 <= i < j < |p.steps| ==> p.steps[i].id != p.steps[j].id
  {
    var p := BuildProcessFromScenario(t, scenario, definitions, now);
    var suffix := "-" + NatToString(now);
    forall i, j | 0 <= i < j < |p.steps| ensures p.steps[i].id != p.steps[j].id {
      assert p.steps[i] == BuildStep(definitions[i], scenario, now);
      assert p.steps[j] == BuildStep(definitions[j], scenario, now);
      StepIdSuffix(definitions[i], scenario, now);
      StepIdSuffix(definitions[j], scenario, now);
      if p.steps[i].id == p.steps[j].id {
        SuffixCancels(definitions[i].id, definitions[j].id, suffix);
      }
    }
  }

  /** Different types have different lower-cased keys: their first letters differ. */
  lemma LowerKeysDistinct(t1: ProcessType, t2: ProcessType)
    requires t1 != t2
    ensures ToLower(t1.Key()) != ToLower(t2.Key())
  {
    assert ToLower(t1.Key())[0] == LowerChar(t1.Key()[0]);
    assert ToLower(t2.Key())[0] == LowerChar(t2.Key()[0]);
  }

  /** Processes of different types built at the same instant have different ids. */
  lemma BuiltProcessIdsDistinct(t1: ProcessType, t2: ProcessType, s1: TimelineScenario, s2: TimelineScenario,
                                d1: seq<StepDefinition>, d2: seq<StepDefinition>, now: nat)
    requires t1 != t2
    ensures BuildProcessFromScenario(t1, s1, d1, now).id != BuildProcessFromScenario(t2, s2, d2, now).id
  {
    LowerKeysDistinct(t1, t2);
    var suffix := "-" + NatToString(now);
    if BuildProcessFromScenario(t1, s1, d1, now).id == BuildProcessFromScenario(t2, s2, d2, now).id {
      assert BuildProcessFromScenario(t1, s1, d1, now).id == ToLower(t1.Key()) + suffix;
      assert BuildProcessFromScenario(t2, s2, d2, now).id == ToLower(t2.Key()) + suffix;
      SuffixCancels(ToLower(t1.Key()), ToLower(t2.Key()), suffix);
    }
  }

  /** With the shipped tables every step finds its scenario step, so none falls back to `NOT_STARTED`. */
  lemma ShippedStepsNeverFallBack(t: ProcessType, now: nat)
    ensures var p := BuildProcessFromScenario(t, GetScenario(t), GetStepDefinitions(t), now);
      forall i :: 0 <= i < |p.steps| ==> p.steps[i].status != NotStarted
  {
    var d := GetStepDefinitions(t);
    var scenario := GetScenario(t);
    ScenarioMatchesDefinitions(t);
    forall i | 0 <= i < |d| ensures FindScenarioStep(scenario.steps, d[i].id) != -1 {
      assert scenario.steps[i].stepId == d[i].id;
    }
  }

  /**
   * The service. `published` lists the processes pushed to the current-process
   * subject, oldest first; subscribers see the last one.
   */
  class ProcessService {
    var currentProcessType: ProcessType
    var published: seq<Process>

    /** The process a subscriber sees: the last one published, or null before any. */
    function CurrentProcess(): (r: Option<Process>)
      reads this
      ensures r.None? <==> published == []
      ensures r.Some? ==> r.value == published[|published| - 1]
    {
      if published == [] then None else Some(published[|published| - 1])
    }

    /** The service starts on BIRTH and loads it at once. */
    constructor(now: nat)
      ensures currentProcessType == Birth
      ensures published == [BuildProcessFromScenario(Birth, GetScenario(Birth), GetStepDefinitions(Birth), now)]
    {
      currentProcessType := Birth;
      published := [];
      new;
      LoadCurrentProcess(Birth, now);
    }

    /** `loadCurrentProcess`: remember the type, build its process from the static tables and publish it. */
    method LoadCurrentProcess(t: ProcessType, now: nat)
      modifies this
      ensures currentProcessType == t
      ensures published == old(published) + [BuildProcessFromScenario(t, GetScenario(t), GetStepDefinitions(t), now)]
    {
      currentProcessType := t;
      var scenario := GetScenario(t);
      var definitions := GetStepDefinitions(t);
      var process := BuildProcessFromScenario(t, scenario, definitions, now);
      published := published + [process];
    }

    /** `getCurrentProcessType`. */
    method GetCurrentProcessType() returns (t: ProcessType)
      ensures t == currentProcessType
    {
      t := currentProcessType;
    }

    /** `switchProcessType`: load the new type, or do nothing when it is already current. */
    method SwitchProcessType(t: ProcessType, now: nat)
      modifies this
      ensures old(currentProcessType) == t ==> currentProcessType == t && published == old(published)
      ensures old(currentProcessType) != t ==>
        currentProcessType == t
        && published == old(published) + [BuildProcessFromScenario(t, GetScenario(t), GetStepDefinitions(t), now)]
    {
      if currentProcessType != t {
        LoadCurrentProcess(t, now);
      }
    }
  }

  /** After loading a type, the service reports that type and shows that type's process. */
  method LoadThenGet(service: ProcessService, t: ProcessType, now: nat) returns (current: ProcessType)
    modifies service
    ensures current == t
    ensures service.CurrentProcess().Some? && service.CurrentProcess().value.processType == t
  {
    service.LoadCurrentProcess(t, now);
    current := service.GetCurrentProcessType();
  }
}
