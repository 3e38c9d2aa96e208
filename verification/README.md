# PV management: action plans, dashboard KPIs and reporting views

A functional Dafny model of three pieces of the photovoltaic installation
management modules.

- **The alarm action-plan generator.** The service asks a chat-completion
  endpoint for a JSON action plan. It then fills in missing required keys with
  fixed defaults and formats the plan as an HTML fragment for the alarm form.
  Covered here:
  - the request helper's API-key check and request shape;
  - its reading of `choices[0].message.content`;
  - the four defaulted keys;
  - the HTML formatter. The fragment is modelled as its sequence of
    structural blocks: the diagnostic section, the step boxes, and the
    optional prevention, notes and references sections.
  - the generator that chains these steps and turns every exception into
    `False`.
- **The dashboard KPIs** (`pv.dashboard._compute_kpis`): installation counts,
  the complaints and interventions of the period, the resolution rate, the mean
  intervention delay, the billed and paid totals, and the payment rate.
- **The reporting SQL views.** For each installation, complaint and
  intervention row they derive:
  - the correlated-subquery counts (`nb_modules`, `nb_onduleurs`,
    `nb_interventions`);
  - the payment columns of an intervention (`montant_total`, `montant_paye`,
    `est_payee`);
  - the `Q<n>` quarter label;
  - the constant `nombre_interventions`.

## Modules

- **`Wrappers`**: `Option`.
- **`PyValue`**: a decoded JSON value as Python sees it. It covers:
  - truthiness, `dict.get`, subscripts, `in`, `len`, iteration, and ASCII
    `str.capitalize`;
  - an `Outcome` that is either a returned value or a raised exception
    (`TypeError`, `AttributeError`, `KeyError`, `IndexError`).

  Dicts are association lists in insertion order.
- **`ActionPlanHtml`**: the formatter.
- **`OpenAIService`**: the request helper, normalisation and the generator. The
  HTTP exchange is an `Exchange` parameter. `json.loads` is a
  `decode: string -> Option<Value>` parameter.
- **`PlanSchema`**: the JSON shape the system prompt asks for, as typed
  records, and what normalisation and the formatter do with such an answer.
- **`Folds`**: counts, filters and sums, with lemmas about them.
- **`Records`**: installations, complaints, interventions, responses, relation
  rows, and calendar dates with their epoch seconds.
- **`Dashboard`**: the KPIs. The ORM's searches skip archived installations
  (`active` unset); `fiche.intervention` declares no `_order`, so a `limit=1`
  search returns the match with the least id.
- **`Reporting`**: the derived view columns. The SQL views read the tables
  directly, so archived installations have rows too.

The request helper does not retry: every request error returns `False`, and
the generator then returns `False` too.

## Model

| member | source | states |
|---|---|---|
| OpenAIService.MakeRequest | pv_management/models/pv_openai_service.py:16-53 | A request is sent iff the key is configured (set and non-empty). With no key the result is False. The request goes to the chat-completion endpoint with a `Bearer <key>` header, the model, the messages, the temperature and the `json_object` response format. Any request failure gives False. |
| OpenAIService.ChoiceContent | pv_management/models/pv_openai_service.py:44-49 | A decoded answer without a `choices` key, or with an empty `choices` list, gives False. A body that is not a dict, list or string raises TypeError at the `in` test. |
| OpenAIService.FirstChoiceContent | pv_management/models/pv_openai_service.py:45-46 | A non-empty `choices` whose first element has a `message` dict with `content` yields exactly that content. |
| OpenAIService.FirstChoiceWithoutMessage | pv_management/models/pv_openai_service.py:46 | A first choice without `message` raises KeyError; the helper only catches request errors. |
| PyValue.SetDefault | pv_management/models/pv_openai_service.py:123-137 | Each `if key not in plan: plan[key] = default` leaves the key present. A missing key then holds the default. The old entries stay a prefix, so the new key goes last. |
| PyValue.SetDefaultKeeps | pv_management/models/pv_openai_service.py:123-137 | A key already in the dict keeps its value. |
| PyValue.SetDefaultOthers | pv_management/models/pv_openai_service.py:123-137 | No key other than the defaulted one appears or disappears. |
| PyValue.SetDefaultDistinct | pv_management/models/pv_openai_service.py:123-137 | A dict without repeated keys stays without repeated keys. |
| OpenAIService.ApplyDefaults | pv_management/models/pv_openai_service.py:123-137 | The checks run in order and only append, so the plan's own entries are a prefix of the result. |
| OpenAIService.ApplyDefaultsKeeps | pv_management/models/pv_openai_service.py:123-137 | A key the plan already has keeps its value through all the checks. |
| OpenAIService.ApplyDefaultsHas | pv_management/models/pv_openai_service.py:123-137 | Every default key is present afterwards. |
| OpenAIService.ApplyDefaultsAdds | pv_management/models/pv_openai_service.py:123-137 | A default key the plan lacked holds its default afterwards, when no earlier check supplies the same key. |
| OpenAIService.ApplyDefaultsKeys | pv_management/models/pv_openai_service.py:123-137 | Every key afterwards was in the plan or among the default keys. |
| OpenAIService.ApplyDefaultsDistinct | pv_management/models/pv_openai_service.py:123-137 | A plan without repeated keys stays without repeated keys. |
| OpenAIService.ApplyDefaultsPresent | pv_management/models/pv_openai_service.py:123-137 | When every default key is already present, the checks change nothing. |
| OpenAIService.Normalise | pv_management/models/pv_openai_service.py:123-137 | Each of the four required keys is present afterwards. A missing key gets its default. Present keys keep their values. Nothing else is added. |
| OpenAIService.NormalisedHasRequiredKeys | pv_management/models/pv_openai_service.py:123-137 | `diagnostic`, `severity`, `action_steps` and `prevention_measures` are always present after normalisation. |
| OpenAIService.NormaliseDefaults | pv_management/models/pv_openai_service.py:123-137 | The defaults are exactly "Diagnostic non disponible.", "medium", [] and []. |
| OpenAIService.NormaliseKeepsOtherKeys | pv_management/models/pv_openai_service.py:123-137 | Any key other than the four keeps its lookup, present or absent. |
| OpenAIService.ApplyDefaultsIdempotent | pv_management/models/pv_openai_service.py:123-137 | Applying the same defaults twice equals applying them once. |
| OpenAIService.NormaliseIdempotent | pv_management/models/pv_openai_service.py:123-137 | Normalising a normalised plan changes nothing. |
| OpenAIService.PlanFromContent | pv_management/models/pv_openai_service.py:116-146 | Falsy content gives False. A plan is produced only from text that decodes to a dict. Its fields are that dict normalised, and its fragment is what the formatter returns for them. |
| OpenAIService.GenerateActionPlan | pv_management/models/pv_openai_service.py:111-146 | No key, a request failure or an exception from the helper all give False. A generated plan has the four required keys and carries the formatter's fragment for its own fields. |
| OpenAIService.GenerateFromAnswer | pv_management/models/pv_openai_service.py:116-142 | With a key, non-empty text content that decodes to a dict, and a normalised dict the formatter accepts, the result is the normalised dict with its fragment. |
| OpenAIService.AnsweredRequestContent | pv_management/models/pv_openai_service.py:16-53 | With a configured key, an answered request yields exactly what the helper reads from the answer body. |
| OpenAIService.PlanFromText | pv_management/models/pv_openai_service.py:116-142 | Non-empty text that decodes to a dict the formatter accepts after normalisation gives a plan. Its fields are the normalised dict and its fragment is the formatter's result. |
| OpenAIService.GeneratedPlanOrigin | pv_management/models/pv_openai_service.py:116-146 | Every generated plan implies a configured key, an answered request, and non-empty text content that decodes to a dict whose normalisation is the plan. |
| ActionPlanHtml.OptionalList | pv_management/models/pv_openai_service.py:189-198 | A sub-list is emitted iff its field is truthy. It then has one item per element the loop visits, in order. A truthy value that cannot be iterated raises. |
| ActionPlanHtml.RenderStep | pv_management/models/pv_openai_service.py:175-238 | A step renders iff it is a dict with a string technical level and iterable (or falsy) tool, part and safety fields. The box shows the description (default ""), the level (default "basic") and its capitalised badge, and the time (default "N/A"). Each sub-list is present iff its field is truthy, and then holds exactly the elements the loop visits in that field, in order. |
| PyValue.MapOutcome | pv_management/models/pv_openai_service.py:175 | A `for` loop whose body may raise completes iff the body returns on every element. It then yields one result per element, in order, each the body's result on its own element. |
| ActionPlanHtml.RenderSteps | pv_management/models/pv_openai_service.py:175-238 | The step list renders iff every step does. It then has one box per step, in order, each rendered from its own element. |
| ActionPlanHtml.SpecialistLabel | pv_management/models/pv_openai_service.py:166 | "Oui" iff `requires_specialist` is truthy, otherwise "Non". |
| ActionPlanHtml.RenderDiagnostic | pv_management/models/pv_openai_service.py:154-167 | The diagnostic block renders iff the severity (default "medium") is a string. It carries the diagnostic (default "Non disponible"), that severity and its capitalised label, and the resolution time (default "N/A"). The specialist line reads "Oui" iff `requires_specialist` (default False) is truthy. |
| ActionPlanHtml.Assemble | pv_management/models/pv_openai_service.py:154-281 | The diagnostic block comes first and the step list second. The prevention, notes and references sections appear iff they have content, each carrying that content. The fragment has exactly these blocks, each kind at most once, in the order diagnostic, steps, prevention, notes, references. |
| ActionPlanHtml.Render | pv_management/models/pv_openai_service.py:148-281 | The fragment starts with the diagnostic block and then the step list. The prevention, notes and references sections appear iff their fields are truthy, and no other block appears. The blocks come in the order diagnostic, steps, prevention, notes, references. The prevention and references items are exactly the elements of their fields, in order, and the notes block shows `additional_notes`. |
| ActionPlanHtml.RenderedStepsFollowActionSteps | pv_management/models/pv_openai_service.py:175-238 | A rendered fragment has exactly one step box per element of `action_steps`, in list order. |
| ActionPlanHtml.RenderSucceedsIffUsable | pv_management/models/pv_openai_service.py:148-281 | The formatter returns iff the severity is a string, `action_steps` is iterable with every step usable, and the prevention and references fields are falsy or iterable. |
| PlanSchema.EncodedPlanIsNormal | pv_management/models/pv_openai_service.py:76-96 | An answer of exactly the requested shape is left unchanged by normalisation. |
| PlanSchema.RenderEncodedStep | pv_management/models/pv_openai_service.py:175-238 | A step of the requested shape renders to the box with its description, level, time, and the tool, part and safety lists, each present iff non-empty. |
| PlanSchema.RenderEncodedSteps | pv_management/models/pv_openai_service.py:175-238 | The steps of the requested shape render to one box per step, in order. |
| PlanSchema.RenderEncodedPlan | pv_management/models/pv_openai_service.py:148-281 | For an answer of the requested shape the formatter succeeds. It shows "Oui" iff a specialist is required, and one box per step. Each optional section appears iff its content is non-empty. |
| PlanSchema.GenerateWellShapedAnswer | pv_management/models/pv_openai_service.py:111-142 | End to end: such an answer is returned unchanged, with one step box per step. |
| Dashboard.Percentage | pv_reporting/models/pv_dashboard.py:50 | The guarded ratio is 0 for a zero whole. Otherwise it is the part over the whole times 100, and it lies in [0, 100] when 0 ≤ part ≤ whole. |
| Dashboard.ListedInstallations | pv_reporting/models/pv_dashboard.py:29 | `search([])` returns exactly the installations that are not archived, never more than the table holds. |
| Dashboard.ListedCounts | pv_reporting/models/pv_dashboard.py:29-31 | The installation count is 0 iff every installation is archived, and the full table size when none is. |
| Dashboard.ActiveInstallations | pv_reporting/models/pv_dashboard.py:30-32 | The active installations are exactly those in state 'in_progress'. There are never more of them than installations. |
| Dashboard.ComplaintsIn | pv_reporting/models/pv_dashboard.py:35-39 | A complaint is counted iff its timestamp lies in the period, both ends included, and each one is counted once: the list is as long as the number of complaints of the period. |
| Dashboard.InterventionsIn | pv_reporting/models/pv_dashboard.py:42-46 | An intervention is counted iff its creation time lies in the period, both ends included, and each one is counted once: the list is as long as the number of interventions created in the period. |
| Dashboard.ResponsesIn | pv_reporting/models/pv_dashboard.py:62-65 | A response is billed iff its closing time lies in the period, both ends included, and each one once: the list is as long as the number of responses closed in the period. |
| Dashboard.ResolutionRate | pv_reporting/models/pv_dashboard.py:49-50 | The rate is 0 without interventions and always lies in [0, 100]. Otherwise rate × total = closed × 100. |
| Dashboard.FirstInterventionFor | pv_reporting/models/pv_dashboard.py:55 | The `limit=1` search finds nothing iff no intervention references the complaint. Otherwise it finds an intervention of the table that references it, and no intervention that references it has a smaller id (`fiche.intervention` has no `_order`, so the search sorts by id). |
| Dashboard.SearchFirst | pv_reporting/models/pv_dashboard.py:55 | A scan of the table that keeps the least-id match finds the same intervention as the search. |
| Dashboard.DelayHours | pv_reporting/models/pv_dashboard.py:57 | The delay in hours times 3600 is the number of seconds from the complaint to the intervention's creation. It is non-negative iff the intervention was created no earlier than the complaint, and within 24 hours either way when both fall on the same date. |
| Dashboard.Delays | pv_reporting/models/pv_dashboard.py:53-58 | The `delais` list has at most one delay per complaint, and is empty iff the search finds an intervention for no complaint. `DelaysCount`, `DelaysBetween` and `AverageDelay` state the rest. |
| Dashboard.DelaysBetween | pv_reporting/models/pv_dashboard.py:53-58 | When the delay of every answered complaint lies in [lo, hi], every element of `delais` does. |
| Dashboard.DelaysCount | pv_reporting/models/pv_dashboard.py:53-58 | There is one delay per complaint that has an intervention. |
| Dashboard.Mean | pv_reporting/models/pv_dashboard.py:59 | The mean is 0 for no delays. Otherwise mean × count = sum. |
| Dashboard.MeanBetween | pv_reporting/models/pv_dashboard.py:59 | The mean of values in [lo, hi] lies in [lo, hi]. |
| Dashboard.MeanDelayBetween | pv_reporting/models/pv_dashboard.py:53-59 | When the delay of every answered complaint lies in [lo, hi], so does `delai_moyen_intervention` whenever there is a delay. |
| Dashboard.CollectDelays | pv_reporting/models/pv_dashboard.py:53-58 | The loop of one `limit=1` search per complaint collects exactly the `delais` list. |
| Dashboard.SumLoop | pv_reporting/models/pv_dashboard.py:59 | The running total of `sum(delais)` equals the sum of the list. |
| Dashboard.AverageDelay | pv_reporting/models/pv_dashboard.py:53-59 | The delay loop followed by `sum / len`, or 0, computes the mean of the per-complaint delays. |
| Dashboard.BillingFigures | pv_reporting/models/pv_dashboard.py:62-71 | The billed total is the sum of `montant_a_payer` over the responses closed in the period. The paid total is that sum over those of them flagged 'oui'. The payment rate is 0 when the billed total is 0. |
| Dashboard.PaidIsPeriodSum | pv_reporting/models/pv_dashboard.py:62-69 | Summing the amounts of the paid responses among those closed in the period is summing, over all responses, the amounts of those closed in the period and flagged 'oui'. |
| Dashboard.BilledSplitsIntoPaidAndUnpaid | pv_reporting/models/pv_dashboard.py:62-68 | The billed total of the period is its paid total plus the total of its closed responses not flagged 'oui'. |
| Dashboard.PaidAtMostBilled | pv_reporting/models/pv_dashboard.py:67-69 | With non-negative amounts, 0 ≤ paid ≤ billed. |
| Dashboard.PaymentRateBounds | pv_reporting/models/pv_dashboard.py:62-71 | With non-negative amounts, the paid total lies between 0 and the billed total, and the payment rate lies in [0, 100]. |
| Dashboard.PaymentRateIsRatio | pv_reporting/models/pv_dashboard.py:66-71 | With a non-zero billed total, the payment rate is the paid total over the billed total, times 100. |
| Dashboard.ComputeKpis | pv_reporting/models/pv_dashboard.py:26-71 | The installations counted are the unarchived ones: the count is at most the table size, 0 iff all are archived, and the table size when none is. The active count is at most that count. `nb_reclamations` is the number of complaints reported in the period and `nb_interventions` the number of interventions created in it. `taux_resolution` is the guarded percentage of those interventions that are closed, so it lies in [0, 100] and is 0 without interventions. `delai_moyen_intervention` is the mean of the period's delays, and 0 when no complaint of the period has an intervention. `montant_total_facture` and `montant_total_paye` are the sums of the amounts of the responses closed in the period, all of them and those flagged 'oui'. The payment rate is 0 when nothing is billed. |
| Dashboard.KpiResolutionRate | pv_reporting/models/pv_dashboard.py:42-50 | With interventions in the period, `taux_resolution` × `nb_interventions` = 100 × the number of interventions created in the period and closed. |
| Dashboard.InstallationCounts | pv_reporting/models/pv_dashboard.py:29-32 | `nb_installations` counts the unarchived installations and `nb_installations_actives` those of them in state 'in_progress'; an archived installation counts in neither. |
| Dashboard.KpiPaymentRate | pv_reporting/models/pv_dashboard.py:66-71 | With a non-zero `montant_total_facture`, `taux_paiement` = `montant_total_paye` / `montant_total_facture` × 100. |
| Dashboard.KpiPaymentBounds | pv_reporting/models/pv_dashboard.py:67-71 | With non-negative amounts the dashboard shows 0 ≤ paid ≤ billed and a payment rate in [0, 100]. |
| Reporting.QuarterOf | pv_reporting/models/pv_reporting.py:59 | The quarter q is in 1..4, with 3q−2 ≤ month ≤ 3q. |
| Reporting.QuarterLabel | pv_reporting/models/pv_reporting.py:59 | The label starts with 'Q'. It is the bare "Q" iff there is no date. |
| Reporting.QuarterLabelRoundTrip | pv_reporting/models/pv_reporting.py:59 | Parsing the label gives back the date's quarter, and nothing for a missing date. |
| Reporting.QuarterLabelSameQuarter | pv_reporting/models/pv_reporting.py:125 | Two dates share a label iff their months fall in the same quarter. |
| Reporting.InstallationRowOf | pv_reporting/models/pv_reporting.py:55-59 | `nb_modules` (`nb_onduleurs`) is the number of module (inverter) relation rows that reference the installation. It is 0 iff no relation row references it, and it is bounded by the relation table's size. `quarter` names the quarter of the commissioning date, and no quarter when there is none. |
| Reporting.InstallationView | pv_reporting/models/pv_reporting.py:40-64 | The view has one row per installation, archived ones included, in table order. Each row carries its installation's id and its module and inverter relation counts. |
| Reporting.ModuleCountsSumListedLinks | pv_reporting/models/pv_reporting.py:55 | With distinct installation ids, the `nb_modules` column sums to the number of relation rows that reference a listed installation. |
| Reporting.ModuleCountsCoverLinks | pv_reporting/models/pv_reporting.py:55 | When every relation row references a listed installation, the column sums to the number of relation rows. |
| Reporting.ComplaintRowOf | pv_reporting/models/pv_reporting.py:117-125 | The row is the complaint's. `nb_interventions` is the number of interventions referencing the complaint, and 0 iff none does. `quarter` names the quarter of the complaint's date. |
| Reporting.CountedIffDashboardFindsIntervention | pv_reporting/models/pv_reporting.py:117 | A complaint has interventions in the report iff the dashboard's search finds one for it. |
| Reporting.InterventionRowOf | pv_reporting/models/pv_reporting.py:218-233 | `nombre_interventions` is 1. `montant_total` is the sum of the amounts of the intervention's own responses. `montant_paye` is the sum of the amounts of its responses flagged 'oui', so it is 0 when none is. `est_payee` holds iff the intervention has a response and none of its responses is flagged 'non'. `quarter` names the quarter of the intervention's creation date. |
| Reporting.NoResponsesNothingOwed | pv_reporting/models/pv_reporting.py:218-227 | Without responses, both sums are 0 and the intervention is not paid. |
| Reporting.PaidAtMostTotal | pv_reporting/models/pv_reporting.py:218-220 | With non-negative amounts, 0 ≤ `montant_paye` ≤ `montant_total`. |
| Reporting.SettledMeansPaidInFull | pv_reporting/models/pv_reporting.py:218-227 | A paid intervention whose responses all carry a flag has `montant_paye` = `montant_total`. |
| Reporting.UnflaggedResponseLeavesPaidShort | pv_reporting/models/pv_reporting.py:218-220 | With non-negative amounts, a response of the intervention with no flag and a positive amount makes `montant_paye` < `montant_total`. |
| Reporting.SettledYetPaidShortExample | pv_reporting/models/pv_reporting.py:218-227 | An example: one response flagged 'oui' (100) and one with no flag (50) give a row with `est_payee` set, `montant_paye` 100 and `montant_total` 150. |
| Reporting.InterventionView | pv_reporting/models/pv_reporting.py:196-242 | The view has one row per intervention, in table order. Each row carries its intervention's id, the total of its responses and the total of those flagged 'oui'. |
| Reporting.CountColumnCountsInterventions | pv_reporting/models/pv_reporting.py:233 | Summing `nombre_interventions` over the view gives the number of interventions. |
| Reporting.TotalsCoverResponses | pv_reporting/models/pv_reporting.py:218 | With distinct intervention ids, summing `montant_total` over the view counts each response of a listed intervention exactly once. |

## Left out

- The HTTP POST and `response.json()` are not modelled. They are network I/O; the model takes their outcome as an `Exchange` parameter. Every failure the HTTP library reports is a request error.
- OpenAIService.MakeRequest: treats a body that is not JSON as a request error, as `requests` 2.27 and later report it. With an older `requests`, `response.json()` raises a `ValueError` that escapes the helper. The generator's own handler then still returns False, so only the helper's result differs.
- `json.loads` is not modelled. It is a foreign library; the model takes it as a `decode` parameter. It is assumed to produce dicts with distinct keys, as Python dicts always are.
- OpenAIService.GenerateActionPlan: does not model the failure of building the prompt. `json.dumps` raises a `TypeError` on alarm data that is not JSON-serialisable (pv_management/models/pv_openai_service.py:101), and the generator's handler then returns False before any request is sent. The model takes the built messages as a parameter, so it has no alarm data to serialise.
- The text of the system and user prompts is not modelled; the generator takes the messages as a parameter. `PlanSchema` models the JSON shape that the prompt asks for.
- The logging calls are not modelled. They have no effect on results.
- The fixed markup, whitespace and stylesheet of the fragment are not modelled. They are constant text, and the model keeps only the structural blocks and their contents.
- The str() formatting of interpolated values is not modelled; the blocks hold the values themselves.
- `html_content` is not stored as a dict key. The generator stores the fragment under that key of the returned dict; the model returns the normalised dict and the fragment side by side.
- `PyValue.Capitalize`: handles ASCII letters only. Python's `str.capitalize` also maps non-ASCII letters.
- The conversion of the dashboard's `date_from`/`date_to` to timestamp bounds is not modelled. It belongs to the ORM, so the period is given as two instants.
- The `delai_intervention_heures` and `duree_intervention_jours` columns are not modelled. They depend on `NOW()`, wall-clock time.
- The `TO_CHAR` year, month, week, day and hour columns are not modelled. They are date formatting.
- The pass-through columns (names, codes, client, district, technician rating) are not modelled. Each only copies a field or joins a name.
- Floating-point rounding is not modelled. Amounts, rates and delays are reals.
- An unset `montant_a_payer` counts as 0. SQL sums skip it and the ORM reads it as 0.0, so the totals are the same.
- The ORM record lifecycle is not part of this model: sequences, `create` overrides, onchange handlers, state buttons, window actions and `name_get`. It is framework glue without statable logic.
- Calls to code that is not shown are not part of this model. These are the technician-performance analysis and the complaint fields that the complaint model refers to but does not define.
- The manifest and the field-only model files are not part of this model. They declare data only.
