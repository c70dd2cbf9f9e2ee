/** `BaseMarketAgent`: the part of the market agents' base class that is not an LLM
    call: the required-field check on an incoming context, the registration endpoint,
    and the guard on reporting results back to the core. */
module BaseAgent {
  import opened Results
  import opened Text
  import opened Values
  import opened Context
  import opened Orchestrator
  import opened Validators

  /** The two entries of the agent's `config` dict that the base class reads. */
  datatype AgentSettings = AgentSettings(requiredFields: Option<seq<string>>, triggerCondition: Option<Value>)

  /** The registration `register_with_core` sends through the core connector. */
  datatype Registration = Registration(connectorUrl: string, agentName: string,
                                       triggerCondition: Option<Value>, endpoint: string)

  /** The update `update_context_results` sends through the core connector. */
  datatype ResultsUpdate = ResultsUpdate(connectorUrl: string, sessionId: string, agentName: string, results: Dict)

  const DefaultCoreUrl := "http://localhost:8000"
  const NoConnector := "CoreConnector no inicializado"

  /** The endpoint an agent registers: `f"{core_url}/agents/{name}/execute"`. */
  function Endpoint(coreUrl: string, name: string): string
  {
    coreUrl + "/agents/" + name + "/execute"
  }

  /** Distinct agents registered against the same core get distinct endpoints. */
  lemma EndpointInjective(coreUrl: string, n1: string, n2: string)
    requires Endpoint(coreUrl, n1) == Endpoint(coreUrl, n2)
    ensures n1 == n2
  {
    var e1, e2 := Endpoint(coreUrl, n1), Endpoint(coreUrl, n2);
    var p := |coreUrl + "/agents/"|;
    assert |n1| == |n2|;
    assert n1 == e1[p..p + |n1|];
    assert n2 == e2[p..p + |n2|];
  }

  /** `all(field in data and data[field] for field in required_fields)`. */
  predicate AllFilled(required: seq<string>, data: Dict)
  {
    required == [] || (required[0] in data && Truthy(data[required[0]]) && AllFilled(required[1..], data))
  }

  lemma {:induction false} AllFilledIff(required: seq<string>, data: Dict)
    ensures AllFilled(required, data) <==> forall f :: f in required ==> f in data && Truthy(data[f])
  {
    if required != [] {
      AllFilledIff(required[1..], data);
      assert forall f :: f in required <==> f == required[0] || f in required[1..];
    }
  }

  class BaseMarketAgent {
    const name: string
    const settings: AgentSettings
    /** `core_connector`, created on the first registration; it is identified by
        the core URL it talks to. */
    var coreConnector: Option<string>

    constructor(name: string, settings: AgentSettings)
      ensures this.name == name && this.settings == settings && coreConnector == None
    {
      this.name := name;
      this.settings := settings;
      coreConnector := None;
    }

    /** `config.get("required_fields", [])`. */
    function RequiredFields(): seq<string>
    {
      if settings.requiredFields.Some? then settings.requiredFields.value else []
    }

    /** `validate_context`. The context is the JSON object the core posts, whose
        "data" is a dict; a "data" of any other kind is rejected as soon as a field
        is required. */
    function ValidateContext(context: Dict): (r: Result<bool>)
      ensures RequiredFields() == [] ==> r == Ok(true)
      ensures "data" !in context ==> r == Ok(RequiredFields() == [])
      ensures "data" in context && context["data"].VDict? ==>
        r.Ok? && (r.value <==> forall f :: f in RequiredFields() ==>
                                 f in context["data"].entries && Truthy(context["data"].entries[f]))
    {
      var required := RequiredFields();
      if "data" !in context then
        Ok(AllFilled(required, map[]))
      else match context["data"]
        case VDict(data) =>
          AllFilledIff(required, data);
          Ok(AllFilled(required, data))
        case _ => if required == [] then Ok(true) else Err("data is not a dict")
    }

    /** A required field that is present but falsy (None, "", 0, an empty
        collection) makes the check fail. */
    lemma FalsyFieldFails(context: Dict, field: string)
      requires "data" in context && context["data"].VDict?
      requires field in RequiredFields() && field in context["data"].entries
      requires !Truthy(context["data"].entries[field])
      ensures ValidateContext(context) == Ok(false)
    {
    }

    /** A context that passes this check also passes the generic required-field
        validator, which asks only for presence. */
    lemma ValidContextHasRequiredFields(context: Dict)
      requires "data" in context && context["data"].VDict?
      requires ValidateContext(context) == Ok(true)
      ensures ValidateRequiredFields(context["data"].entries, RequiredFields()) == Pass
    {
    }

    /** On the body the orchestrator posts, the check reads the session's data. */
    lemma ValidatesPostedContext(view: ContextView)
      ensures ValidateContext(EncodeContext(view)) == Ok(AllFilled(RequiredFields(), view.data))
    {
      EncodeContextKeepsData(view);
      AllFilledIff(RequiredFields(), view.data);
    }

    /** `register_with_core`: the connector is created from the first `core_url` and
        kept afterwards; the endpoint is built from the `core_url` of this call. */
    method RegisterWithCore(coreUrl: string) returns (reg: Registration)
      modifies this
      ensures coreConnector == if old(coreConnector).None? then Some(coreUrl) else old(coreConnector)
      ensures reg == Registration(coreConnector.value, name, settings.triggerCondition, Endpoint(coreUrl, name))
    {
      if coreConnector.None? {
        coreConnector := Some(coreUrl);
      }
      reg := Registration(coreConnector.value, name, settings.triggerCondition, Endpoint(coreUrl, name));
    }

    /** `register_with_core()` called without an argument: `core_url` takes its
        default, the local core. */
    method RegisterWithDefaultCore() returns (reg: Registration)
      modifies this
      ensures coreConnector == if old(coreConnector).None? then Some(DefaultCoreUrl) else old(coreConnector)
      ensures reg.endpoint == "http://localhost:8000/agents/" + name + "/execute"
      ensures reg.agentName == name && reg.triggerCondition == settings.triggerCondition
    {
      reg := RegisterWithCore(DefaultCoreUrl);
    }

    /** `update_context_results`: without a connector it raises before anything is sent. */
    method UpdateContextResults(sessionId: string, results: Dict) returns (r: Result<ResultsUpdate>)
      ensures coreConnector.None? <==> r == Err(NoConnector)
      ensures coreConnector.Some? ==> r == Ok(ResultsUpdate(coreConnector.value, sessionId, name, results))
    {
      if coreConnector.None? {
        return Err(NoConnector);
      }
      r := Ok(ResultsUpdate(coreConnector.value, sessionId, name, results));
    }
  }
}
