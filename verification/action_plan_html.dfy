/**
 * The HTML formatter of the alarm action plan. The fragment is modelled as the
 * sequence of its structural blocks: the diagnostic section, the ordered list of
 * step boxes, and the optional prevention, notes and references sections. The
 * fixed markup, whitespace and stylesheet around them carry no behaviour.
 */
module ActionPlanHtml {
  import opened Wrappers
  import opened PyValue

  /** One `<li>` step box of the action-step list. */
  datatype StepItem = StepItem(
    description: Value,
    technicalLevel: string,     // the CSS class suffix `tech-level-<level>`
    levelLabel: string,         // the capitalised level shown in the badge
    estimatedTime: Value,       // shown followed by "minutes"
    tools: Option<seq<Value>>,  // the "Outils nécessaires" sub-list, one `<li>` per element
    parts: Option<seq<Value>>,  // the "Pièces nécessaires" sub-list
    safety: Option<seq<Value>>  // the "Précautions de sécurité" sub-list
  )

  datatype Section =
    | DiagnosticSection(
        diagnostic: Value,
        severity: string,       // the CSS class suffix `severity-<severity>`
        severityLabel: string,  // the capitalised severity shown after "Gravité:"
        resolutionTime: Value,  // shown followed by "heure(s)"
        specialist: string)     // "Oui" or "Non"
    | StepsSection(steps: seq<StepItem>)
    | PreventionSection(measures: seq<Value>)
    | NotesSection(notes: Value)
    | ReferencesSection(references: seq<Value>)

  /**
   * An optional sub-list or section: emitted only when the field is truthy, with
   * one item per element a `for` loop visits in it.
   */
  function OptionalList(v: Value): (r: Outcome<Option<seq<Value>>>)
    ensures r == Returned(None) <==> !Truthy(v)
    ensures r.Raised? <==> Truthy(v) && Iterate(v).Raised?
    ensures r.Returned? && r.value.Some? ==> Iterate(v) == Returned(r.value.value) && |r.value.value| > 0
  {
    if !Truthy(v) then Returned(None)
    else
      var items :- Iterate(v);
      Returned(Some(items))
  }

  /** The step box of one element of `action_steps`; each element must be a dict. */
  function RenderStep(step: Value): (r: Outcome<StepItem>)
    ensures r.Returned? <==> StepUsable(step)
    ensures r.Returned? ==>
      && r.value.description == Get(step.entries, "description", Str(""))
      && Str(r.value.technicalLevel) == Get(step.entries, "technical_level", Str("basic"))
      && r.value.levelLabel == Capitalize(r.value.technicalLevel)
      && r.value.estimatedTime == Get(step.entries, "estimated_time", Str("N/A"))
      && (r.value.tools.Some? <==> Truthy(Get(step.entries, "requires_tools", Null)))
      && (r.value.parts.Some? <==> Truthy(Get(step.entries, "requires_parts", Null)))
      && (r.value.safety.Some? <==> Truthy(Get(step.entries, "safety_precautions", Null)))
    ensures r.Returned? && r.value.tools.Some? ==> Iterate(Get(step.entries, "requires_tools", Null)) == Returned(r.value.tools.value)
    ensures r.Returned? && r.value.parts.Some? ==> Iterate(Get(step.entries, "requires_parts", Null)) == Returned(r.value.parts.value)
    ensures r.Returned? && r.value.safety.Some? ==>
      Iterate(Get(step.entries, "safety_precautions", Null)) == Returned(r.value.safety.value)
  {
    match step
    case Dict(fields) =>
      var description := Get(fields, "description", Str(""));
      var level := Get(fields, "technical_level", Str("basic"));
      var levelLabel :- CapitalizeValue(level);
      var estimated := Get(fields, "estimated_time", Str("N/A"));
      var tools :- OptionalList(Get(fields, "requires_tools", Null));
      var parts :- OptionalList(Get(fields, "requires_parts", Null));
      var safety :- OptionalList(Get(fields, "safety_precautions", Null));
      Returned(StepItem(description, level.s, levelLabel, estimated, tools, parts, safety))
    case _ => Raised(AttributeError)
  }

  /** The step boxes of all action steps, in list order; the first failing step aborts. */
  function RenderSteps(steps: seq<Value>): (r: Outcome<seq<StepItem>>)
    ensures r.Returned? <==> forall i :: 0 <= i < |steps| ==> RenderStep(steps[i]).Returned?
    ensures r.Returned? ==> |r.value| == |steps|
    ensures r.Returned? ==> forall i :: 0 <= i < |steps| ==> RenderStep(steps[i]) == Returned(r.value[i])
  {
    MapOutcome(steps, RenderStep)
  }

  function SpecialistLabel(required: Value): (r: string)
    ensures r == "Oui" || r == "Non"
    ensures r == "Oui" <==> Truthy(required)
  {
    if Truthy(required) then "Oui" else "Non"
  }

  /** The place of each kind of block in the fragment. */
  function Rank(section: Section): nat {
    match section
    case DiagnosticSection(_, _, _, _, _) => 0
    case StepsSection(_) => 1
    case PreventionSection(_) => 2
    case NotesSection(_) => 3
    case ReferencesSection(_) => 4
  }

  /** The blocks come in the fixed order of their kinds, each kind at most once. */
  predicate InDocumentOrder(doc: seq<Section>) {
    forall i, j :: 0 <= i < j < |doc| ==> Rank(doc[i]) < Rank(doc[j])
  }

  /** Blocks in order followed by blocks in order whose kinds all come later stay in order. */
  lemma OrderedAfter(doc: seq<Section>, more: seq<Section>, bound: nat)
    requires InDocumentOrder(doc) && |more| <= 1
    requires forall i :: 0 <= i < |doc| ==> Rank(doc[i]) < bound
    requires forall j :: 0 <= j < |more| ==> Rank(more[j]) == bound
    ensures InDocumentOrder(doc + more)
    ensures forall i :: 0 <= i < |doc + more| ==> Rank((doc + more)[i]) <= bound
  {
  }

  /** 1 for a block that is emitted, 0 for one that is not. */
  function Present(emitted: bool): nat {
    if emitted then 1 else 0
  }

  /**
   * The fragment in document order: the diagnostic section, the step list, then
   * each optional section that has content.
   */
  function Assemble(
    head: Section, steps: seq<StepItem>, prevention: Option<seq<Value>>, notes: Value, references: Option<seq<Value>>
  ): (doc: seq<Section>)
    requires head.DiagnosticSection?
    ensures |doc| >= 2 && doc[0] == head && doc[1] == StepsSection(steps)
    ensures |doc| == 2 + Present(prevention.Some?) + Present(Truthy(notes)) + Present(references.Some?)
    ensures InDocumentOrder(doc)
    ensures HasPrevention(doc) <==> prevention.Some?
    ensures HasNotes(doc) <==> Truthy(notes)
    ensures HasReferences(doc) <==> references.Some?
    ensures forall i :: 0 <= i < |doc| && doc[i].PreventionSection? ==> prevention == Some(doc[i].measures)
    ensures forall i :: 0 <= i < |doc| && doc[i].NotesSection? ==> doc[i].notes == notes
    ensures forall i :: 0 <= i < |doc| && doc[i].ReferencesSection? ==> references == Some(doc[i].references)
  {
    BlocksInOrder(head, steps, prevention, notes, references);
    BlocksCarryContent(head, steps, prevention, notes, references);
    Blocks(head, steps, prevention, notes, references)
  }

  /** The blocks of the fragment, before anything is said about them. */
  function Blocks(
    head: Section, steps: seq<StepItem>, prevention: Option<seq<Value>>, notes: Value, references: Option<seq<Value>>
  ): seq<Section> {
    [head, StepsSection(steps)]
      + (if prevention.Some? then [PreventionSection(prevention.value)] else [])
      + (if Truthy(notes) then [NotesSection(notes)] else [])
      + (if references.Some? then [ReferencesSection(references.value)] else [])
  }

  lemma BlocksInOrder(
    head: Section, steps: seq<StepItem>, prevention: Option<seq<Value>>, notes: Value, references: Option<seq<Value>>)
    requires head.DiagnosticSection?
    ensures var doc := Blocks(head, steps, prevention, notes, references);
      && |doc| == 2 + Present(prevention.Some?) + Present(Truthy(notes)) + Present(references.Some?)
      && InDocumentOrder(doc)
  {
    var p := if prevention.Some? then [PreventionSection(prevention.value)] else [];
    var n := if Truthy(notes) then [NotesSection(notes)] else [];
    var f := if references.Some? then [ReferencesSection(references.value)] else [];
    OrderedAfter([head, StepsSection(steps)], p, 2);
    OrderedAfter([head, StepsSection(steps)] + p, n, 3);
    OrderedAfter([head, StepsSection(steps)] + p + n, f, 4);
  }

  lemma BlocksCarryContent(
    head: Section, steps: seq<StepItem>, prevention: Option<seq<Value>>, notes: Value, references: Option<seq<Value>>)
    requires head.DiagnosticSection?
    ensures var doc := Blocks(head, steps, prevention, notes, references);
      && |doc| >= 2 && doc[0] == head && doc[1] == StepsSection(steps)
      && (HasPrevention(doc) <==> prevention.Some?)
      && (HasNotes(doc) <==> Truthy(notes))
      && (HasReferences(doc) <==> references.Some?)
      && (forall i :: 0 <= i < |doc| && doc[i].PreventionSection? ==> prevention == Some(doc[i].measures))
      && (forall i :: 0 <= i < |doc| && doc[i].NotesSection? ==> doc[i].notes == notes)
      && (forall i :: 0 <= i < |doc| && doc[i].ReferencesSection? ==> references == Some(doc[i].references))
  {
    var p := if prevention.Some? then [PreventionSection(prevention.value)] else [];
    var n := if Truthy(notes) then [NotesSection(notes)] else [];
    var f := if references.Some? then [ReferencesSection(references.value)] else [];
    var doc := [head, StepsSection(steps)] + p + n + f;
    assert doc == Blocks(head, steps, prevention, notes, references);
    assert prevention.Some? ==> doc[2].PreventionSection?;
    assert Truthy(notes) ==> doc[2 + |p|].NotesSection?;
    assert references.Some? ==> doc[2 + |p| + |n|].ReferencesSection?;
  }

  /** A field that feeds an optional list: falsy, or something a `for` loop can visit. */
  predicate ListFieldUsable(v: Value) {
    !Truthy(v) || v.List? || v.Str? || v.Dict?
  }

  /** The step shapes the formatter accepts without raising. */
  predicate StepUsable(step: Value) {
    && step.Dict?
    && Get(step.entries, "technical_level", Str("basic")).Str?
    && ListFieldUsable(Get(step.entries, "requires_tools", Null))
    && ListFieldUsable(Get(step.entries, "requires_parts", Null))
    && ListFieldUsable(Get(step.entries, "safety_precautions", Null))
  }

  /** An `action_steps` value the formatter accepts: iterable, and every element a usable step. */
  predicate StepsUsable(steps: Value) {
    && (steps.List? || steps.Str? || steps.Dict?)
    && forall i :: 0 <= i < |Iterate(steps).value| ==> StepUsable(Iterate(steps).value[i])
  }

  /** The plan shapes the formatter accepts without raising. */
  predicate PlanUsable(plan: seq<Entry>) {
    && Get(plan, "severity", Str("medium")).Str?
    && StepsUsable(Get(plan, "action_steps", List([])))
    && ListFieldUsable(Get(plan, "prevention_measures", Null))
    && ListFieldUsable(Get(plan, "documentation_references", Null))
  }

  predicate HasPrevention(doc: seq<Section>) {
    exists i :: 0 <= i < |doc| && doc[i].PreventionSection?
  }

  predicate HasNotes(doc: seq<Section>) {
    exists i :: 0 <= i < |doc| && doc[i].NotesSection?
  }

  predicate HasReferences(doc: seq<Section>) {
    exists i :: 0 <= i < |doc| && doc[i].ReferencesSection?
  }

  /** The diagnostic section: diagnostic text, severity box and the details box. */
  function RenderDiagnostic(plan: seq<Entry>): (r: Outcome<Section>)
    ensures r.Returned? <==> Get(plan, "severity", Str("medium")).Str?
    ensures r.Returned? ==> r.value.DiagnosticSection?
    ensures r.Returned? ==> r.value.diagnostic == Get(plan, "diagnostic", Str("Non disponible"))
    ensures r.Returned? ==> r.value.resolutionTime == Get(plan, "estimated_resolution_time", Str("N/A"))
    ensures r.Returned? ==> Str(r.value.severity) == Get(plan, "severity", Str("medium"))
    ensures r.Returned? ==> r.value.severityLabel == Capitalize(r.value.severity)
    ensures r.Returned? ==> (r.value.specialist == "Oui" <==> Truthy(Get(plan, "requires_specialist", Bool(false))))
  {
    var diagnostic := Get(plan, "diagnostic", Str("Non disponible"));
    var severity := Get(plan, "severity", Str("medium"));
    var severityLabel :- CapitalizeValue(severity);
    var resolution := Get(plan, "estimated_resolution_time", Str("N/A"));
    var specialist := SpecialistLabel(Get(plan, "requires_specialist", Bool(false)));
    Returned(DiagnosticSection(diagnostic, severity.s, severityLabel, resolution, specialist))
  }

  /** `_format_action_plan_html`: the blocks of the HTML fragment for a plan dict. */
  function Render(plan: seq<Entry>): (r: Outcome<seq<Section>>)
    ensures r.Returned? ==> |r.value| >= 2 && r.value[1].StepsSection?
    ensures r.Returned? ==>
      |r.value| == 2 + Present(Truthy(Get(plan, "prevention_measures", Null)))
        + Present(Truthy(Get(plan, "additional_notes", Null))) + Present(Truthy(Get(plan, "documentation_references", Null)))
    ensures r.Returned? ==> InDocumentOrder(r.value)
    ensures r.Returned? ==> Some(r.value[0]) == RenderDiagnostic(plan).ToOption()
    ensures r.Returned? ==> (HasPrevention(r.value) <==> Truthy(Get(plan, "prevention_measures", Null)))
    ensures r.Returned? ==> (HasNotes(r.value) <==> Truthy(Get(plan, "additional_notes", Null)))
    ensures r.Returned? ==> (HasReferences(r.value) <==> Truthy(Get(plan, "documentation_references", Null)))
    ensures r.Returned? ==> forall i :: 0 <= i < |r.value| && r.value[i].PreventionSection? ==>
      Iterate(Get(plan, "prevention_measures", Null)) == Returned(r.value[i].measures)
    ensures r.Returned? ==> forall i :: 0 <= i < |r.value| && r.value[i].NotesSection? ==>
      r.value[i].notes == Get(plan, "additional_notes", Null)
    ensures r.Returned? ==> forall i :: 0 <= i < |r.value| && r.value[i].ReferencesSection? ==>
      Iterate(Get(plan, "documentation_references", Null)) == Returned(r.value[i].references)
  {
    var head :- RenderDiagnostic(plan);
    var stepValues :- Iterate(Get(plan, "action_steps", List([])));
    var steps :- RenderSteps(stepValues);
    var prevention :- OptionalList(Get(plan, "prevention_measures", Null));
    var notes := Get(plan, "additional_notes", Null);
    var references :- OptionalList(Get(plan, "documentation_references", Null));
    Returned(Assemble(head, steps, prevention, notes, references))
  }

  /**
   * The ordered list has exactly one step box per element of `action_steps`, in
   * list order, each rendered from its own element.
   */
  lemma RenderedStepsFollowActionSteps(plan: seq<Entry>, doc: seq<Section>)
    requires Render(plan) == Returned(doc)
    ensures Iterate(Get(plan, "action_steps", List([]))).Returned?
    ensures var steps := Iterate(Get(plan, "action_steps", List([]))).value;
      && |doc[1].steps| == |steps|
      && forall i :: 0 <= i < |steps| ==> RenderStep(steps[i]) == Returned(doc[1].steps[i])
  {
    var stepValues := Iterate(Get(plan, "action_steps", List([])));
    assert stepValues.Returned?;
    var steps := RenderSteps(stepValues.value);
    assert steps.Returned?;
    assert doc[1] == StepsSection(steps.value);
  }

  /**
   * The formatter raises exactly when the severity is not a string, `action_steps`
   * is not iterable or holds an unusable step, or a truthy prevention or
   * references field is not iterable.
   */
  lemma RenderSucceedsIffUsable(plan: seq<Entry>)
    ensures Render(plan).Returned? <==> PlanUsable(plan)
  {
    var stepsValue := Get(plan, "action_steps", List([]));
    var stepsRendered := Iterate(stepsValue).Returned? && RenderSteps(Iterate(stepsValue).value).Returned?;
    assert stepsRendered <==> StepsUsable(stepsValue) by {
      if Iterate(stepsValue).Returned? {
        var rendered := RenderSteps(Iterate(stepsValue).value);
        assert rendered.Returned? <==> StepsUsable(stepsValue);
      }
    }
    var prevention := Get(plan, "prevention_measures", Null);
    var references := Get(plan, "documentation_references", Null);
    assert OptionalList(prevention).Returned? <==> ListFieldUsable(prevention);
    assert OptionalList(references).Returned? <==> ListFieldUsable(references);
    assert Render(plan).Returned? <==>
      RenderDiagnostic(plan).Returned? && stepsRendered
      && OptionalList(prevention).Returned? && OptionalList(references).Returned?;
  }
}
