/**
 * The JSON object the system prompt of the plan generator asks the model to
 * answer with, as typed records, and how the formatter treats an answer of
 * exactly that shape.
 */
module PlanSchema {
  import opened Wrappers
  import opened PyValue
  import opened ActionPlanHtml
  import opened OpenAIService

  datatype Severity = Low | Medium | High | Critical

  datatype TechnicalLevel = Basic | Intermediate | Advanced

  datatype StepSpec = StepSpec(
    step: int,
    description: string,
    estimatedMinutes: int,
    tools: seq<string>,
    parts: seq<string>,
    level: TechnicalLevel,
    safety: seq<string>)

  datatype PlanSpec = PlanSpec(
    diagnostic: string,
    severity: Severity,
    resolutionHours: int,
    requiresSpecialist: bool,
    steps: seq<StepSpec>,
    prevention: seq<string>,
    notes: string,
    references: seq<string>)

  function SeverityName(s: Severity): string {
    match s
    case Low => "low"
    case Medium => "medium"
    case High => "high"
    case Critical => "critical"
  }

  function LevelName(l: TechnicalLevel): string {
    match l
    case Basic => "basic"
    case Intermediate => "intermediate"
    case Advanced => "advanced"
  }

  /** A JSON array of strings. */
  function Strings(xs: seq<string>): (r: Value)
    ensures r.List? && |r.items| == |xs|
    ensures forall i :: 0 <= i < |xs| ==> r.items[i] == Str(xs[i])
  {
    List(seq(|xs|, i requires 0 <= i < |xs| => Str(xs[i])))
  }

  function EncodeStep(s: StepSpec): Value {
    Dict([
      Entry("step", Num(s.step as real)),
      Entry("description", Str(s.description)),
      Entry("estimated_time", Num(s.estimatedMinutes as real)),
      Entry("requires_tools", Strings(s.tools)),
      Entry("requires_parts", Strings(s.parts)),
      Entry("technical_level", Str(LevelName(s.level))),
      Entry("safety_precautions", Strings(s.safety))
    ])
  }

  function EncodeSteps(steps: seq<StepSpec>): (r: seq<Value>)
    ensures |r| == |steps|
    ensures forall i :: 0 <= i < |steps| ==> r[i] == EncodeStep(steps[i])
  {
    seq(|steps|, i requires 0 <= i < |steps| => EncodeStep(steps[i]))
  }

  /** The decoded answer for a plan of the requested shape, keys in the requested order. */
  function Encode(p: PlanSpec): seq<Entry> {
    [
      Entry("diagnostic", Str(p.diagnostic)),
      Entry("severity", Str(SeverityName(p.severity))),
      Entry("estimated_resolution_time", Num(p.resolutionHours as real)),
      Entry("requires_specialist", Bool(p.requiresSpecialist)),
      Entry("action_steps", List(EncodeSteps(p.steps))),
      Entry("prevention_measures", Strings(p.prevention)),
      Entry("additional_notes", Str(p.notes)),
      Entry("documentation_references", Strings(p.references))
    ]
  }

  /** An answer of the requested shape already has every required key: normalisation leaves it alone. */
  lemma EncodedPlanIsNormal(p: PlanSpec)
    ensures Normalise(Encode(p)) == Encode(p)
  {
    var e := Encode(p);
    assert Keys(e) == ["diagnostic", "severity", "estimated_resolution_time", "requires_specialist",
                       "action_steps", "prevention_measures", "additional_notes", "documentation_references"];
    DistinctRequired();
    ApplyDefaultsPresent(e, RequiredDefaults);
  }

  /** A string list field is emitted as a sub-list exactly when it is non-empty. */
  function ListOf(xs: seq<string>): (r: Option<seq<Value>>)
    ensures r.Some? <==> |xs| > 0
    ensures r.Some? ==> r.value == Strings(xs).items
    ensures OptionalList(Strings(xs)) == Returned(r)
  {
    if |xs| > 0 then Some(Strings(xs).items) else None
  }

  lemma EncodedStepKeysDistinct(s: StepSpec)
    ensures DistinctKeys(EncodeStep(s).entries)
  {
    var e := EncodeStep(s).entries;
    forall i, j | 0 <= i < j < |e| ensures e[i].key != e[j].key {
      // "requires_tools" and "requires_parts" first differ at index 9
      assert |e[i].key| != |e[j].key| || e[i].key[0] != e[j].key[0] || e[i].key[9] != e[j].key[9];
    }
  }

  /** Each field of an encoded step reads back as the step's own value. */
  lemma EncodedStepFields(s: StepSpec)
    ensures Get(EncodeStep(s).entries, "description", Str("")) == Str(s.description)
    ensures Get(EncodeStep(s).entries, "technical_level", Str("basic")) == Str(LevelName(s.level))
    ensures Get(EncodeStep(s).entries, "estimated_time", Str("N/A")) == Num(s.estimatedMinutes as real)
    ensures Get(EncodeStep(s).entries, "requires_tools", Null) == Strings(s.tools)
    ensures Get(EncodeStep(s).entries, "requires_parts", Null) == Strings(s.parts)
    ensures Get(EncodeStep(s).entries, "safety_precautions", Null) == Strings(s.safety)
  {
    var entries := EncodeStep(s).entries;
    EncodedStepKeysDistinct(s);
    GetDistinct(entries, 1, Str(""));
    GetDistinct(entries, 5, Str("basic"));
    GetDistinct(entries, 2, Str("N/A"));
    GetDistinct(entries, 3, Null);
    GetDistinct(entries, 4, Null);
    GetDistinct(entries, 6, Null);
  }

  /** The step box of a step of the requested shape shows its fields and its non-empty lists. */
  lemma RenderEncodedStep(s: StepSpec)
    ensures RenderStep(EncodeStep(s)) == Returned(StepItem(
      Str(s.description), LevelName(s.level), Capitalize(LevelName(s.level)), Num(s.estimatedMinutes as real),
      ListOf(s.tools), ListOf(s.parts), ListOf(s.safety)))
  {
    EncodedStepFields(s);
  }

  /** The step box the formatter draws for a step of the requested shape. */
  function StepBox(s: StepSpec): StepItem {
    StepItem(Str(s.description), LevelName(s.level), Capitalize(LevelName(s.level)),
             Num(s.estimatedMinutes as real), ListOf(s.tools), ListOf(s.parts), ListOf(s.safety))
  }

  function StepBoxes(steps: seq<StepSpec>): (r: seq<StepItem>)
    ensures |r| == |steps|
    ensures forall i :: 0 <= i < |steps| ==> r[i] == StepBox(steps[i])
  {
    seq(|steps|, i requires 0 <= i < |steps| => StepBox(steps[i]))
  }

  lemma EncodedPlanKeysDistinct(p: PlanSpec)
    ensures DistinctKeys(Encode(p))
  {
    var e := Encode(p);
    forall i, j | 0 <= i < j < |e| ensures e[i].key != e[j].key {
      assert |e[i].key| != |e[j].key| || e[i].key[0] != e[j].key[0];
    }
  }

  /** The diagnostic-section fields of an encoded plan read back as the plan's own values. */
  lemma EncodedPlanHeadFields(p: PlanSpec)
    ensures Get(Encode(p), "diagnostic", Str("Non disponible")) == Str(p.diagnostic)
    ensures Get(Encode(p), "severity", Str("medium")) == Str(SeverityName(p.severity))
    ensures Get(Encode(p), "estimated_resolution_time", Str("N/A")) == Num(p.resolutionHours as real)
    ensures Get(Encode(p), "requires_specialist", Bool(false)) == Bool(p.requiresSpecialist)
  {
    var e := Encode(p);
    EncodedPlanKeysDistinct(p);
    GetDistinct(e, 0, Str("Non disponible"));
    GetDistinct(e, 1, Str("medium"));
    GetDistinct(e, 2, Str("N/A"));
    GetDistinct(e, 3, Bool(false));
  }

  /** The list and notes fields of an encoded plan read back as the plan's own values. */
  lemma EncodedPlanListFields(p: PlanSpec)
    ensures Get(Encode(p), "action_steps", List([])) == List(EncodeSteps(p.steps))
    ensures Get(Encode(p), "prevention_measures", Null) == Strings(p.prevention)
    ensures Get(Encode(p), "additional_notes", Null) == Str(p.notes)
    ensures Get(Encode(p), "documentation_references", Null) == Strings(p.references)
  {
    var e := Encode(p);
    EncodedPlanKeysDistinct(p);
    GetDistinct(e, 4, List([]));
    GetDistinct(e, 5, Null);
    GetDistinct(e, 6, Null);
    GetDistinct(e, 7, Null);
  }

  /** The steps of a plan of the requested shape give one step box each, in order. */
  lemma RenderEncodedSteps(steps: seq<StepSpec>)
    ensures RenderSteps(EncodeSteps(steps)) == Returned(StepBoxes(steps))
  {
    var values := EncodeSteps(steps);
    forall i | 0 <= i < |values|
      ensures RenderStep(values[i]) == Returned(StepBox(steps[i]))
    {
      RenderEncodedStep(steps[i]);
    }
    var rendered := RenderSteps(values);
    assert rendered.Returned?;
    assert forall i :: 0 <= i < |steps| ==> rendered.value[i] == StepBoxes(steps)[i];
    assert rendered.value == StepBoxes(steps);
  }

  /** The diagnostic section the formatter draws for a plan of the requested shape. */
  function DiagnosticBox(p: PlanSpec): Section {
    DiagnosticSection(Str(p.diagnostic), SeverityName(p.severity), Capitalize(SeverityName(p.severity)),
                      Num(p.resolutionHours as real), if p.requiresSpecialist then "Oui" else "Non")
  }

  lemma RenderEncodedDiagnostic(p: PlanSpec)
    ensures RenderDiagnostic(Encode(p)) == Returned(DiagnosticBox(p))
  {
    EncodedPlanHeadFields(p);
  }

  lemma RenderEncodedBlocks(p: PlanSpec)
    ensures Render(Encode(p))
         == Returned(Assemble(DiagnosticBox(p), StepBoxes(p.steps), ListOf(p.prevention), Str(p.notes), ListOf(p.references)))
  {
    RenderEncodedDiagnostic(p);
    EncodedPlanListFields(p);
    RenderEncodedSteps(p.steps);
  }

  /**
   * For an answer of the requested shape the fragment shows the diagnostic, the
   * severity, "Oui" exactly when a specialist is required, one step box per step
   * in order, and each optional section exactly when its content is non-empty.
   */
  lemma RenderEncodedPlan(p: PlanSpec)
    ensures Render(Encode(p)).Returned?
    ensures var doc := Render(Encode(p)).value;
      && doc[0] == DiagnosticBox(p)
      && (doc[0].specialist == "Oui" <==> p.requiresSpecialist)
      && doc[1] == StepsSection(StepBoxes(p.steps))
      && (HasPrevention(doc) <==> |p.prevention| > 0)
      && (HasNotes(doc) <==> |p.notes| > 0)
      && (HasReferences(doc) <==> |p.references| > 0)
  {
    RenderEncodedBlocks(p);
  }

  /**
   * End to end: with a configured key, an answer whose content decodes to a plan
   * of the requested shape is returned unchanged, with one step box per step.
   */
  lemma GenerateWellShapedAnswer(
    apiKey: Option<string>, prompt: seq<Message>, body: Value, decode: string -> Option<Value>,
    text: string, p: PlanSpec)
    requires KeyConfigured(apiKey)
    requires ChoiceContent(body) == Returned(Str(text)) && |text| > 0
    requires decode(text) == Some(Dict(Encode(p)))
    ensures GenerateActionPlan(apiKey, prompt, Answered(body), decode).Some?
    ensures var plan := GenerateActionPlan(apiKey, prompt, Answered(body), decode).value;
      && plan.fields == Encode(p)
      && plan.html[1] == StepsSection(StepBoxes(p.steps))
      && |plan.html[1].steps| == |p.steps|
  {
    EncodedPlanIsNormal(p);
    RenderEncodedPlan(p);
    RenderSucceedsIffUsable(Encode(p));
    GenerateFromAnswer(apiKey, prompt, body, decode, text, Encode(p));
  }
}
