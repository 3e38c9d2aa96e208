/**
 * The chat-completion service of the PV management module: the API-key and
 * response-shape checks of the request helper, the normalisation of the decoded
 * action plan, and the plan generator that strings them together with the HTML
 * formatter. The HTTP exchange and the JSON decoder are parameters.
 */
module OpenAIService {
  import opened Wrappers
  import opened PyValue
  import opened ActionPlanHtml

  const DefaultModel: string := "gpt-4o-mini"
  const DefaultTemperature: real := 0.7
  const Endpoint: string := "https://api.openai.com/v1/chat/completions"

  datatype Message = Message(role: string, content: string)

  /** The POST the helper sends: bearer header, model, messages, temperature, JSON-object response format. */
  datatype ChatRequest = ChatRequest(
    url: string,
    authorization: string,
    model: string,
    messages: seq<Message>,
    temperature: real,
    responseFormat: string)

  /**
   * What the endpoint did with a request: a failure the HTTP library reports as a
   * RequestException (no connection, a 4XX/5XX status, and from version 2.27 of
   * `requests` on a body that is not JSON), or an answer whose body decodes to `body`.
   */
  datatype Exchange = TransportFailure | Answered(body: Value)

  /** A run of the request helper: the request sent, if any, and what the helper returned or raised. */
  datatype RequestRun = RequestRun(sent: Option<ChatRequest>, outcome: Outcome<Value>)

  /** The configuration parameter holding the key is set to a non-empty string. */
  predicate KeyConfigured(apiKey: Option<string>) {
    apiKey.Some? && |apiKey.value| > 0
  }

  /**
   * `result['choices'][0]['message']['content']` when `'choices' in result` and the
   * choices are non-empty, False otherwise; a malformed first choice raises.
   */
  function ChoiceContent(body: Value): (r: Outcome<Value>)
    ensures body.Dict? && !HasKey(body.entries, "choices") ==> r == Returned(Bool(false))
    ensures body.Dict? && Lookup(body.entries, "choices") == Some(List([])) ==> r == Returned(Bool(false))
    ensures !(body.Dict? || body.List? || body.Str?) ==> r == Raised(TypeError)
  {
    var hasChoices :- Contains(body, "choices");
    if !hasChoices then Returned(Bool(false))
    else
      var choices :- Subscript(body, Key("choices"));
      var count :- Len(choices);
      if count == 0 then Returned(Bool(false))
      else
        var first :- Subscript(choices, At(0));
        var message :- Subscript(first, Key("message"));
        Subscript(message, Key("content"))
  }

  /** A well-formed completion yields the first choice's message content. */
  lemma FirstChoiceContent(body: Value, choices: seq<Value>, message: seq<Entry>, content: Value)
    requires body.Dict? && Lookup(body.entries, "choices") == Some(List(choices)) && |choices| > 0
    requires choices[0].Dict? && Lookup(choices[0].entries, "message") == Some(Dict(message))
    requires Lookup(message, "content") == Some(content)
    ensures ChoiceContent(body) == Returned(content)
  {
    assert Contains(body, "choices") == Returned(true);
    assert Subscript(body, Key("choices")) == Returned(List(choices));
    assert Len(List(choices)) == Returned(|choices|);
    assert Subscript(List(choices), At(0)) == Returned(choices[0]);
    assert Subscript(choices[0], Key("message")) == Returned(Dict(message));
    assert Subscript(Dict(message), Key("content")) == Returned(content);
  }

  /** A first choice without a `message` raises KeyError, which the helper does not catch. */
  lemma FirstChoiceWithoutMessage(body: Value, choices: seq<Value>)
    requires body.Dict? && Lookup(body.entries, "choices") == Some(List(choices)) && |choices| > 0
    requires choices[0].Dict? && !HasKey(choices[0].entries, "message")
    ensures ChoiceContent(body) == Raised(KeyError)
  {
  }

  /**
   * `_make_openai_request`: without a configured key it returns False and sends
   * nothing; otherwise it sends the request and returns False on a transport
   * failure, or the first choice's content of the answer.
   */
  function MakeRequest(
    apiKey: Option<string>, messages: seq<Message>, model: string, temperature: real, exchange: Exchange
  ): (r: RequestRun)
    ensures r.sent.Some? <==> KeyConfigured(apiKey)
    ensures !KeyConfigured(apiKey) ==> r.outcome == Returned(Bool(false))
    ensures r.sent.Some? ==>
      r.sent.value == ChatRequest(Endpoint, "Bearer " + apiKey.value, model, messages, temperature, "json_object")
    ensures exchange.TransportFailure? ==> r.outcome == Returned(Bool(false))
  {
    if !KeyConfigured(apiKey) then RequestRun(None, Returned(Bool(false)))
    else
      var request := ChatRequest(Endpoint, "Bearer " + apiKey.value, model, messages, temperature, "json_object");
      match exchange
      case TransportFailure => RequestRun(Some(request), Returned(Bool(false)))
      case Answered(body) => RequestRun(Some(request), ChoiceContent(body))
  }

  const DefaultDiagnostic: string := "Diagnostic non disponible."
  const DefaultSeverity: string := "medium"

  /** The required keys of a plan and the value each gets when the answer lacks it, in check order. */
  const RequiredDefaults: seq<Entry> := [
    Entry("diagnostic", Str(DefaultDiagnostic)),
    Entry("severity", Str(DefaultSeverity)),
    Entry("action_steps", List([])),
    Entry("prevention_measures", List([]))
  ]

  /** Adds each default whose key is missing, in order, after the keys already there. */
  function ApplyDefaults(plan: seq<Entry>, defaults: seq<Entry>): (r: seq<Entry>)
    decreases |defaults|
    ensures plan <= r
  {
    if |defaults| == 0 then plan
    else ApplyDefaults(SetDefault(plan, defaults[0].key, defaults[0].val), defaults[1..])
  }

  /** A key the plan already has keeps its value. */
  lemma {:induction false} ApplyDefaultsKeeps(plan: seq<Entry>, defaults: seq<Entry>, k: string)
    requires HasKey(plan, k)
    decreases |defaults|
    ensures Lookup(ApplyDefaults(plan, defaults), k) == Lookup(plan, k)
  {
    if |defaults| > 0 {
      SetDefaultKeeps(plan, defaults[0].key, defaults[0].val, k);
      ApplyDefaultsKeeps(SetDefault(plan, defaults[0].key, defaults[0].val), defaults[1..], k);
    }
  }

  /** Every default key is present afterwards. */
  lemma {:induction false} ApplyDefaultsHas(plan: seq<Entry>, defaults: seq<Entry>, i: nat)
    requires i < |defaults|
    decreases |defaults|
    ensures HasKey(ApplyDefaults(plan, defaults), defaults[i].key)
  {
    var next := SetDefault(plan, defaults[0].key, defaults[0].val);
    if i == 0 {
      ApplyDefaultsKeeps(next, defaults[1..], defaults[0].key);
    } else {
      assert defaults[1..][i - 1] == defaults[i];
      ApplyDefaultsHas(next, defaults[1..], i - 1);
    }
  }

  /**
   * A default key the plan lacked holds its default afterwards, unless an
   * earlier default already supplied that key.
   */
  lemma {:induction false} ApplyDefaultsAdds(plan: seq<Entry>, defaults: seq<Entry>, i: nat)
    requires i < |defaults| && !HasKey(plan, defaults[i].key)
    requires forall j :: 0 <= j < i ==> defaults[j].key != defaults[i].key
    decreases |defaults|
    ensures Lookup(ApplyDefaults(plan, defaults), defaults[i].key) == Some(defaults[i].val)
  {
    var next := SetDefault(plan, defaults[0].key, defaults[0].val);
    if i == 0 {
      ApplyDefaultsKeeps(next, defaults[1..], defaults[0].key);
    } else {
      var tail := defaults[1..];
      assert tail[i - 1] == defaults[i];
      assert forall j :: 0 <= j < i - 1 ==> tail[j] == defaults[j + 1];
      SetDefaultOthers(plan, defaults[0].key, defaults[0].val, defaults[i].key);
      ApplyDefaultsAdds(next, tail, i - 1);
    }
  }

  /** Every key of the result comes from the plan or the defaults. */
  lemma {:induction false} ApplyDefaultsKeys(plan: seq<Entry>, defaults: seq<Entry>, k: string)
    requires HasKey(ApplyDefaults(plan, defaults), k)
    decreases |defaults|
    ensures HasKey(plan, k) || k in Keys(defaults)
  {
    if |defaults| > 0 {
      assert Keys(defaults) == [defaults[0].key] + Keys(defaults[1..]);
      ApplyDefaultsKeys(SetDefault(plan, defaults[0].key, defaults[0].val), defaults[1..], k);
      if k != defaults[0].key {
        SetDefaultOthers(plan, defaults[0].key, defaults[0].val, k);
      }
    }
  }

  /** No key is repeated afterwards when none was before. */
  lemma {:induction false} ApplyDefaultsDistinct(plan: seq<Entry>, defaults: seq<Entry>)
    requires DistinctKeys(plan)
    decreases |defaults|
    ensures DistinctKeys(ApplyDefaults(plan, defaults))
  {
    if |defaults| > 0 {
      SetDefaultDistinct(plan, defaults[0].key, defaults[0].val);
      ApplyDefaultsDistinct(SetDefault(plan, defaults[0].key, defaults[0].val), defaults[1..]);
    }
  }

  /**
   * The validation block of `generate_alarm_action_plan`: each of the four
   * required keys that is missing is added with its default, after the keys
   * already there.
   */
  function Normalise(plan: seq<Entry>): (r: seq<Entry>)
    ensures forall i :: 0 <= i < |RequiredDefaults| ==> HasKey(r, RequiredDefaults[i].key)
    ensures forall i :: 0 <= i < |RequiredDefaults| && !HasKey(plan, RequiredDefaults[i].key) ==>
      Lookup(r, RequiredDefaults[i].key) == Some(RequiredDefaults[i].val)
    ensures forall k :: HasKey(plan, k) ==> Lookup(r, k) == Lookup(plan, k)
    ensures forall k :: HasKey(r, k) ==> HasKey(plan, k) || k in Keys(RequiredDefaults)
    ensures plan <= r
    ensures DistinctKeys(plan) ==> DistinctKeys(r)
  {
    var r := ApplyDefaults(plan, RequiredDefaults);
    assert forall i :: 0 <= i < |RequiredDefaults| ==>
      HasKey(r, RequiredDefaults[i].key)
      && (!HasKey(plan, RequiredDefaults[i].key) ==> Lookup(r, RequiredDefaults[i].key) == Some(RequiredDefaults[i].val)) by {
      DistinctRequired();
      forall i | 0 <= i < |RequiredDefaults|
        ensures HasKey(r, RequiredDefaults[i].key)
        ensures (!HasKey(plan, RequiredDefaults[i].key) ==> Lookup(r, RequiredDefaults[i].key) == Some(RequiredDefaults[i].val))
      {
        ApplyDefaultsHas(plan, RequiredDefaults, i);
        if !HasKey(plan, RequiredDefaults[i].key) {
          assert forall j :: 0 <= j < i ==> RequiredDefaults[j].key != RequiredDefaults[i].key;
          ApplyDefaultsAdds(plan, RequiredDefaults, i);
        }
      }
    }
    assert forall k :: HasKey(plan, k) ==> Lookup(r, k) == Lookup(plan, k) by {
      forall k | HasKey(plan, k) ensures Lookup(r, k) == Lookup(plan, k) {
        ApplyDefaultsKeeps(plan, RequiredDefaults, k);
      }
    }
    assert forall k :: HasKey(r, k) ==> HasKey(plan, k) || k in Keys(RequiredDefaults) by {
      forall k | HasKey(r, k) ensures HasKey(plan, k) || k in Keys(RequiredDefaults) {
        ApplyDefaultsKeys(plan, RequiredDefaults, k);
      }
    }
    assert DistinctKeys(plan) ==> DistinctKeys(r) by {
      if DistinctKeys(plan) {
        ApplyDefaultsDistinct(plan, RequiredDefaults);
      }
    }
    r
  }

  /** With every default key already present, applying the defaults changes nothing. */
  lemma {:induction false} ApplyDefaultsPresent(plan: seq<Entry>, defaults: seq<Entry>)
    requires forall i :: 0 <= i < |defaults| ==> HasKey(plan, defaults[i].key)
    decreases |defaults|
    ensures ApplyDefaults(plan, defaults) == plan
  {
    if |defaults| > 0 {
      assert SetDefault(plan, defaults[0].key, defaults[0].val) == plan;
      assert forall i :: 0 < i < |defaults| ==> defaults[i] == defaults[1..][i - 1];
      ApplyDefaultsPresent(plan, defaults[1..]);
    }
  }

  /** After normalisation the four required keys are always present. */
  lemma NormalisedHasRequiredKeys(plan: seq<Entry>)
    ensures HasKey(Normalise(plan), "diagnostic") && HasKey(Normalise(plan), "severity")
    ensures HasKey(Normalise(plan), "action_steps") && HasKey(Normalise(plan), "prevention_measures")
  {
    assert RequiredDefaults[0].key == "diagnostic" && RequiredDefaults[1].key == "severity";
    assert RequiredDefaults[2].key == "action_steps" && RequiredDefaults[3].key == "prevention_measures";
  }

  /** A missing required key gets exactly its default. */
  lemma NormaliseDefaults(plan: seq<Entry>)
    ensures !HasKey(plan, "diagnostic") ==> Lookup(Normalise(plan), "diagnostic") == Some(Str("Diagnostic non disponible."))
    ensures !HasKey(plan, "severity") ==> Lookup(Normalise(plan), "severity") == Some(Str("medium"))
    ensures !HasKey(plan, "action_steps") ==> Lookup(Normalise(plan), "action_steps") == Some(List([]))
    ensures !HasKey(plan, "prevention_measures") ==> Lookup(Normalise(plan), "prevention_measures") == Some(List([]))
  {
    assert RequiredDefaults[0] == Entry("diagnostic", Str("Diagnostic non disponible."));
    assert RequiredDefaults[1] == Entry("severity", Str("medium"));
    assert RequiredDefaults[2] == Entry("action_steps", List([]));
    assert RequiredDefaults[3] == Entry("prevention_measures", List([]));
  }

  /**
   * Keys other than the four required ones, and required keys the answer already
   * had, keep their values and nothing is removed.
   */
  lemma NormaliseKeepsOtherKeys(plan: seq<Entry>, k: string)
    requires HasKey(plan, k) || !(k in Keys(RequiredDefaults))
    ensures Lookup(Normalise(plan), k) == Lookup(plan, k)
  {
  }

  /** Applying the same defaults twice is the same as applying them once. */
  lemma ApplyDefaultsIdempotent(plan: seq<Entry>, defaults: seq<Entry>)
    ensures ApplyDefaults(ApplyDefaults(plan, defaults), defaults) == ApplyDefaults(plan, defaults)
  {
    forall i | 0 <= i < |defaults| ensures HasKey(ApplyDefaults(plan, defaults), defaults[i].key) {
      ApplyDefaultsHas(plan, defaults, i);
    }
    ApplyDefaultsPresent(ApplyDefaults(plan, defaults), defaults);
  }

  /** No key occurs twice in the defaults table. */
  lemma DistinctRequired()
    ensures DistinctKeys(RequiredDefaults)
  {
  }

  /** Normalising an already normalised plan changes nothing. */
  lemma NormaliseIdempotent(plan: seq<Entry>)
    ensures Normalise(Normalise(plan)) == Normalise(plan)
  {
    ApplyDefaultsIdempotent(plan, RequiredDefaults);
  }

  /**
   * The generated plan: the normalised dict, and the fragment the generator
   * stores under its `html_content` key.
   */
  datatype ActionPlan = ActionPlan(fields: seq<Entry>, html: seq<Section>)

  /**
   * Lines 116-142 of the generator once the helper has returned `content`: falsy
   * content gives False; the content is decoded with `json.loads`, which raises on
   * a non-string or malformed text; a decoded value that is not a dict fails the
   * key checks or the formatter; otherwise the plan is normalised and formatted.
   * Every exception is turned into False (None here).
   */
  function PlanFromContent(content: Value, decode: string -> Option<Value>): (r: Option<ActionPlan>)
    ensures !Truthy(content) ==> r == None
    ensures r.Some? ==> content.Str? && decode(content.s).Some? && decode(content.s).value.Dict?
    ensures r.Some? ==> r.value.fields == Normalise(decode(content.s).value.entries)
    ensures r.Some? ==> Render(r.value.fields) == Returned(r.value.html)
  {
    if !Truthy(content) then None
    else
      match content
      case Str(text) =>
        (match decode(text)
         case Some(Dict(entries)) =>
           var fields := Normalise(entries);
           (match Render(fields)
            case Returned(html) => Some(ActionPlan(fields, html))
            case Raised(_) => None)
         case _ => None)
      case _ => None
  }

  /** `generate_alarm_action_plan`, with the prompt messages given. */
  function GenerateActionPlan(
    apiKey: Option<string>, prompt: seq<Message>, exchange: Exchange, decode: string -> Option<Value>
  ): (r: Option<ActionPlan>)
    ensures !KeyConfigured(apiKey) ==> r == None
    ensures exchange.TransportFailure? ==> r == None
    ensures MakeRequest(apiKey, prompt, DefaultModel, DefaultTemperature, exchange).outcome.Raised? ==> r == None
    ensures r.Some? ==> forall i :: 0 <= i < |RequiredDefaults| ==> HasKey(r.value.fields, RequiredDefaults[i].key)
    ensures r.Some? ==> Render(r.value.fields) == Returned(r.value.html)
  {
    match MakeRequest(apiKey, prompt, DefaultModel, DefaultTemperature, exchange).outcome
    case Returned(content) => PlanFromContent(content, decode)
    case Raised(_) => None
  }

  /**
   * A configured key and an answer whose first choice holds non-empty text that
   * decodes to a dict the formatter accepts give the normalised dict and its
   * fragment.
   */
  lemma GenerateFromAnswer(
    apiKey: Option<string>, prompt: seq<Message>, body: Value, decode: string -> Option<Value>,
    text: string, entries: seq<Entry>)
    requires KeyConfigured(apiKey)
    requires ChoiceContent(body) == Returned(Str(text)) && |text| > 0
    requires decode(text) == Some(Dict(entries))
    requires PlanUsable(Normalise(entries))
    ensures var plan := GenerateActionPlan(apiKey, prompt, Answered(body), decode);
      && plan.Some?
      && plan.value.fields == Normalise(entries)
      && Render(Normalise(entries)) == Returned(plan.value.html)
  {
    AnsweredRequestContent(apiKey, prompt, body);
    RenderSucceedsIffUsable(Normalise(entries));
    PlanFromText(text, decode, entries);
  }

  /** With a key, the helper returns whatever the answer's first choice yields. */
  lemma AnsweredRequestContent(apiKey: Option<string>, prompt: seq<Message>, body: Value)
    requires KeyConfigured(apiKey)
    ensures MakeRequest(apiKey, prompt, DefaultModel, DefaultTemperature, Answered(body)).outcome == ChoiceContent(body)
  {
  }

  /** Non-empty text that decodes to a dict the formatter accepts becomes a plan. */
  lemma PlanFromText(text: string, decode: string -> Option<Value>, entries: seq<Entry>)
    requires |text| > 0 && decode(text) == Some(Dict(entries))
    requires Render(Normalise(entries)).Returned?
    ensures var plan := PlanFromContent(Str(text), decode);
      && plan.Some?
      && plan.value.fields == Normalise(entries)
      && Render(Normalise(entries)) == Returned(plan.value.html)
  {
    var fields := Normalise(entries);
    var html := Render(fields).value;
    assert Truthy(Str(text));
    assert PlanFromContent(Str(text), decode) == Some(ActionPlan(fields, html));
  }

  /** Every generated plan came from an answer: text content that decodes to a dict, normalised. */
  lemma GeneratedPlanOrigin(
    apiKey: Option<string>, prompt: seq<Message>, exchange: Exchange, decode: string -> Option<Value>)
    ensures GenerateActionPlan(apiKey, prompt, exchange, decode).Some? ==>
      && KeyConfigured(apiKey) && exchange.Answered?
      && var content := ChoiceContent(exchange.body);
      && content.Returned? && content.value.Str? && |content.value.s| > 0
      && decode(content.value.s).Some? && decode(content.value.s).value.Dict?
      && GenerateActionPlan(apiKey, prompt, exchange, decode).value.fields
         == Normalise(decode(content.value.s).value.entries)
  {
  }
}
